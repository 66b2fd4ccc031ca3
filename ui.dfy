/** What the components see of the browser and of the mogwai runtime.

    - A DOM input is a handle with a mutable `value` cell.
    - A built view is an opaque value named by what it was built from.
    - `Patch` is mogwai's list-patch vocabulary. `Apply` is the reference meaning of a patch
      on a parent's ordered children. mogwai itself is not part of this model, so `Apply`
      is an assumption, not verified library code.
    - An `Effect` is one entry of the ordered log an `update` produces: a message sent on
      the output channel, an asynchronous task spawned for the component's own input
      channel, or a write to the location hash, the document title or the session store. */
module Ui {
  import opened Base
  import Api
  import Routes

  /** A DOM input or text area: a handle whose text the user and the program can change. */
  class Element {
    var value: string

    constructor (value: string)
      ensures this.value == value
    {
      this.value := value;
    }
  }

  /** The objects an optional handle refers to. */
  function Handle(o: Option<Element>): set<object> {
    match o
    case Some(el) => {el}
    case None => {}
  }

  /** The text of an optional input as a form reads it: absent when there is no input or
      its text is empty, otherwise the text. */
  function InputText(o: Option<Element>): (text: Option<string>)
    reads Handle(o)
    ensures text.None? <==> (o.None? || o.value.value == "")
    ensures text.Some? ==> o.Some? && text.value == o.value.value
  {
    match o
    case None => None
    case Some(el) => if el.value == "" then None else Some(el.value)
  }

  /** Built views, named by what built them. */
  datatype View =
    | Page(route: Routes.Route)
    | NavBar
    | Footer
    | Brand
    | NavList(route: Routes.Route, user: Option<Api.User>)
    | ErrorItem(text: string)
    | ArticlePreview(article: Api.Article)

  function ErrorItems(errors: seq<string>): (views: seq<View>)
    ensures |views| == |errors|
    ensures forall i :: 0 <= i < |errors| ==> views[i] == ErrorItem(errors[i])
  {
    Map(e => ErrorItem(e), errors)
  }

  // ---------------------------------------------------------------------------
  // Patches on an ordered child list

  datatype Patch<V> = PushBack(value: V) | RemoveAll | Replace(index: nat, value: V)

  /** A parent's children: the first `statics` were declared with the view, the rest were
      added by patches. */
  datatype Children<V> = Children(statics: nat, nodes: seq<V>)

  type ChildList<V> = c: Children<V> | c.statics <= |c.nodes| witness Children(0, [])

  /** The reference meaning of one patch: append; drop every patched-in child; swap the
      child at an index. Replacing a child that does not exist is a caller error. */
  function Apply<V>(c: ChildList<V>, p: Patch<V>): Option<ChildList<V>> {
    match p
    case PushBack(v) => Some(Children(c.statics, c.nodes + [v]))
    case RemoveAll => Some(Children(c.statics, c.nodes[..c.statics]))
    case Replace(i, v) => if i < |c.nodes| then Some(Children(c.statics, c.nodes[i := v])) else None
  }

  function ApplyAll<V>(c: ChildList<V>, ps: seq<Patch<V>>): Option<ChildList<V>>
    decreases |ps|
  {
    if ps == [] then Some(c)
    else
      match Apply(c, ps[0])
      case None => None
      case Some(next) => ApplyAll(next, ps[1..])
  }

  function PushBacks<V>(values: seq<V>): (ps: seq<Patch<V>>)
    ensures |ps| == |values|
    ensures forall i :: 0 <= i < |values| ==> ps[i] == PushBack(values[i])
  {
    Map(v => PushBack(v), values)
  }

  /** Clear the list, then append each value in order: how every component repopulates a list. */
  function ResetPatches<V>(values: seq<V>): seq<Patch<V>> {
    [RemoveAll] + PushBacks(values)
  }

  lemma {:induction false} ApplyPushBacks<V>(c: ChildList<V>, values: seq<V>)
    ensures ApplyAll(c, PushBacks(values)) == Some(Children(c.statics, c.nodes + values))
    decreases |values|
  {
    if values == [] {
      assert c.nodes + values == c.nodes;
    } else {
      var next: ChildList<V> := Children(c.statics, c.nodes + [values[0]]);
      assert PushBacks(values)[1..] == PushBacks(values[1..]);
      ApplyPushBacks(next, values[1..]);
      assert next.nodes + values[1..] == c.nodes + values;
    }
  }

  /** After a reset the list holds its static children followed by the new values, in order,
      whatever it held before. */
  lemma {:induction false} ApplyResetPatches<V>(c: ChildList<V>, values: seq<V>)
    ensures ApplyAll(c, ResetPatches(values)) == Some(Children(c.statics, c.nodes[..c.statics] + values))
  {
    var cleared: ChildList<V> := Children(c.statics, c.nodes[..c.statics]);
    assert ResetPatches(values)[1..] == PushBacks(values);
    ApplyPushBacks(cleared, values);
  }

  /** `RemoveAll` twice is `RemoveAll` once, and it never touches the static children. */
  lemma RemoveAllIdempotent<V>(c: ChildList<V>)
    ensures ApplyAll(c, [RemoveAll, RemoveAll]) == ApplyAll(c, [RemoveAll])
    ensures ApplyAll(c, [RemoveAll]) == Some(Children(c.statics, c.nodes[..c.statics]))
  {
    var once: ChildList<V> := Children(c.statics, c.nodes[..c.statics]);
    var twice: seq<Patch<V>> := [RemoveAll, RemoveAll];
    assert twice[1..] == [RemoveAll];
    assert once.nodes[..once.statics] == once.nodes;
  }

  /** `Replace` at an existing index puts the value there and keeps the length and every
      other child. */
  lemma ReplaceInPlace<V>(c: ChildList<V>, i: nat, v: V)
    requires i < |c.nodes|
    ensures Apply(c, Replace(i, v)).Some?
    ensures |Apply(c, Replace(i, v)).value.nodes| == |c.nodes|
    ensures Apply(c, Replace(i, v)).value.nodes[i] == v
    ensures forall j :: 0 <= j < |c.nodes| && j != i ==> Apply(c, Replace(i, v)).value.nodes[j] == c.nodes[j]
  {}

  // ---------------------------------------------------------------------------
  // The effect log of an update

  datatype Effect<O, T> =
    | Send(out: O)
    | Spawn(task: T)
    | SetHash(hash: string)
    | SetTitle(title: string)
    | WriteUser(user: Api.User)
    | WriteItem(key: string, user: Api.User)
    | DeleteUser

  function Sends<O, T>(outs: seq<O>): (effects: seq<Effect<O, T>>)
    ensures |effects| == |outs|
    ensures forall i :: 0 <= i < |outs| ==> effects[i] == Send(outs[i])
  {
    Map(o => Send(o), outs)
  }
}
