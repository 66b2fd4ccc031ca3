/** The application root: a slot holding the navigation bar, the current page and the
    footer. Every route the navigation bar announces replaces the page. */
module App {
  import opened Base
  import opened Ui
  import Routes
  import Nav

  datatype AppModel = HashChange(route: Routes.Route)

  datatype AppView = NewPage(page: View, route: Routes.Route)

  /** `App::bind`: the nav's route announcements, and nothing else, become the app's input. */
  function Forward(v: Nav.NavView): (m: Option<AppModel>)
    ensures m.Some? <==> v.Route?
    ensures m.Some? ==> m.value.route == v.newRoute
  {
    match v.RouteChange()
    case Some(r) => Some(HashChange(r))
    case None => None
  }

  /** `App::update`: one new page, built for the announced route. */
  function Update(msg: AppModel): (out: seq<AppView>)
    ensures |out| == 1
    ensures out[0].route == msg.route && out[0].page == Page(msg.route)
  {
    [NewPage(Page(msg.route), msg.route)]
  }

  /** The slot's patch for an output: the new page replaces the middle child. */
  function SlotPatch(v: AppView): (p: Option<Patch<View>>)
    ensures p.Some? && p.value.Replace? && p.value.index == 1 && p.value.value == v.page
  {
    match v
    case NewPage(page, _) => Some(Replace(1, page))
  }

  /** The slot as built: the nav, the page for the nav's current route, the footer. */
  function InitialSlot(route: Routes.Route): ChildList<View> {
    Children(3, [NavBar, Page(route), Footer])
  }

  /** The patches the slot receives while the nav announces `navOut`. */
  function SlotPatches(navOut: seq<Nav.NavView>): seq<Patch<View>>
    decreases |navOut|
  {
    if navOut == [] then []
    else
      var rest := SlotPatches(navOut[1..]);
      match Forward(navOut[0])
      case Some(m) => [SlotPatch(Update(m)[0]).value] + rest
      case None => rest
  }

  /** Whatever the nav announces, the slot keeps the nav first and the footer last, and its
      middle child is the page of the route the nav shows. */
  lemma {:induction false} PageFollowsRoute(initial: Routes.Route, navOut: seq<Nav.NavView>)
    ensures ApplyAll(InitialSlot(initial), SlotPatches(navOut))
      == Some(InitialSlot(Nav.RouteAfter(initial, navOut)))
    decreases |navOut|
  {
    if navOut != [] {
      var next := Nav.RouteAfter(initial, navOut[..1]);
      Nav.RouteAfterFront(initial, navOut);
      PageFollowsRoute(next, navOut[1..]);
      assert navOut[..1] == [navOut[0]];
      assert Nav.RouteAfter(initial, navOut[..1][..0]) == initial;
      match Forward(navOut[0])
      case Some(m) =>
        assert [NavBar, Page(initial), Footer][1 := Page(m.route)] == [NavBar, Page(m.route), Footer];
        assert Apply(InitialSlot(initial), Replace(1, Page(m.route))) == Some(InitialSlot(next));
        var ps := SlotPatches(navOut);
        assert ps[0] == Replace(1, Page(m.route)) && ps[1..] == SlotPatches(navOut[1..]);
      case None =>
        assert next == initial;
    }
  }
}
