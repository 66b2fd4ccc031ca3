/** A user's profile page: on binding it fetches the profile and the user's articles; the
    profile fills the header and the articles repopulate the article list. */
module Profile {
  import opened Base
  import opened Ui
  import Api

  datatype In = Articles(articles: Api.Articles) | Profile(profile: Api.UserProfile)

  /** A patch for the article list, or a profile for the header. */
  datatype Out = ArticlePatch(patch: Patch<View>) | Profile(user: Api.UserProfile) {
    /** `Out::articles`. */
    function ArticlesOf(): (p: Option<Patch<View>>)
      ensures p.Some? <==> this.ArticlePatch?
      ensures p.Some? ==> p.value == patch
    {
      match this
      case ArticlePatch(patch) => Some(patch)
      case Profile(_) => None
    }

    /** `Out::user`. */
    function UserOf(): (u: Option<Api.UserProfile>)
      ensures u.Some? <==> this.Profile?
      ensures u.Some? ==> u.value == user
    {
      match this
      case ArticlePatch(_) => None
      case Profile(user) => Some(user)
    }
  }

  /** The two fetches; a completed `LoadProfile` delivers `In.Profile`, a completed
      `LoadArticles` delivers `In.Articles`. */
  datatype Task = LoadProfile(request: Api.Request) | LoadArticles(request: Api.Request)

  type ProfileEffect = Effect<Out, Task>

  /** The header's three texts: the picture, the name and the follow button's label. */
  datatype Header = Header(image: string, username: string, followLabel: string)

  /** What a profile output writes into the header; article patches leave it alone. */
  function HeaderUpdate(o: Out): (h: Option<Header>)
    ensures h.Some? <==> o.Profile?
    ensures h.Some? ==> h.value.image == o.user.image && h.value.username == o.user.username
    ensures h.Some? ==> h.value.followLabel == " Follow " + o.user.username
  {
    match o.UserOf()
    case Some(u) => Some(Header(u.image, u.username, " Follow " + u.username))
    case None => None
  }

  function Previews(articles: seq<Api.Article>): (views: seq<View>)
    ensures |views| == |articles|
    ensures forall i :: 0 <= i < |articles| ==> views[i] == ArticlePreview(articles[i])
  {
    Map(a => ArticlePreview(a), articles)
  }

  function Wrap(ps: seq<Patch<View>>): (outs: seq<Out>)
    ensures |outs| == |ps|
    ensures forall i :: 0 <= i < |ps| ==> outs[i] == ArticlePatch(ps[i])
  {
    Map(p => ArticlePatch(p), ps)
  }

  /** What an article list sends: clear the list, then one preview per article, in order. */
  function ArticleOuts(articles: seq<Api.Article>): (outs: seq<Out>)
    ensures |outs| == |articles| + 1
    ensures outs[0] == ArticlePatch(RemoveAll)
    ensures forall i :: 0 <= i < |articles| ==> outs[i + 1] == ArticlePatch(PushBack(ArticlePreview(articles[i])))
  {
    Wrap(ResetPatches(Previews(articles)))
  }

  /** The patches the article slot receives from a stream of outputs: profiles are skipped. */
  function ArticlePatches(outs: seq<Out>): seq<Patch<View>>
    decreases |outs|
  {
    if outs == [] then []
    else
      var rest := ArticlePatches(outs[1..]);
      match outs[0].ArticlesOf()
      case Some(p) => [p] + rest
      case None => rest
  }

  lemma {:induction false} ArticlePatchesOfWrap(ps: seq<Patch<View>>)
    ensures ArticlePatches(Wrap(ps)) == ps
    decreases |ps|
  {
    if ps != [] {
      ArticlePatchesOfWrap(ps[1..]);
      assert Wrap(ps)[1..] == Wrap(ps[1..]);
    }
  }

  /** After an article list arrives the slot shows one preview per article, in order,
      whatever it showed before. */
  lemma ArticleSlotShowsArticles(c: ChildList<View>, articles: seq<Api.Article>)
    ensures ApplyAll(c, ArticlePatches(ArticleOuts(articles)))
      == Some(Children(c.statics, c.nodes[..c.statics] + Previews(articles)))
  {
    ArticlePatchesOfWrap(ResetPatches(Previews(articles)));
    ApplyResetPatches(c, Previews(articles));
  }

  class Profile {
    var username: string
    var isFavorites: bool

    constructor (username: string, isFavorites: bool)
      ensures this.username == username && this.isFavorites == isFavorites
    {
      this.username := username;
      this.isFavorites := isFavorites;
    }

    /** On binding the page fetches the profile, then the articles written by the same user,
        both with the stored user's token when there is one. `isFavorites` is not consulted. */
    method Bind(stored: Option<Api.User>) returns (effects: seq<ProfileEffect>)
      ensures |effects| == 2
      ensures effects[0] == Spawn(LoadProfile(Api.GetProfileRequest(username, if stored.Some? then Some(stored.value.token) else None)))
      ensures effects[1].Spawn? && effects[1].task.LoadArticles?
      ensures effects[1] == Spawn(LoadArticles(Api.GetArticlesRequest(Some(username), None, None, None, None,
                                                     if stored.Some? then Some(stored.value.token) else None)))
      ensures effects[1].task.request.url == Api.ApiUrl + "/articles?author=" + username
      ensures effects[1].task.request.verb == "GET"
      ensures effects[1].task.request.auth == effects[0].task.request.auth
    {
      var oToken := if stored.Some? then Some(stored.value.token) else None;
      effects := [Spawn(LoadProfile(Api.GetProfileRequest(username, oToken)))];
      Api.AuthorQuery(username);
      effects := effects + [Spawn(LoadArticles(Api.GetArticlesRequest(Some(username), None, None, None, None, oToken)))];
    }

    /** An article list repopulates the article slot; a profile is passed on to the header. */
    method Update(msg: In) returns (effects: seq<ProfileEffect>)
      ensures msg.Articles? ==> effects == Sends(ArticleOuts(msg.articles.articles))
      ensures msg.Profile? ==> effects == [Send(Out.Profile(msg.profile))]
    {
      match msg
      case Articles(list) =>
        effects := [Send(ArticlePatch(RemoveAll))];
        for i := 0 to |list.articles|
          invariant |effects| == i + 1
          invariant forall j :: 0 <= j < |effects| ==> effects[j] == Send(ArticleOuts(list.articles)[j])
        {
          effects := effects + [Send(ArticlePatch(PushBack(ArticlePreview(list.articles[i]))))];
        }
        assert effects == Sends(ArticleOuts(list.articles));
      case Profile(p) =>
        effects := [Send(Out.Profile(p))];
    }
  }
}
