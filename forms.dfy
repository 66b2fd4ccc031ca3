/** What the three forms (sign-up, sign-in, settings) share: their output, a patch for the
    form's error list, and how a failure repopulates that list. Each form declares its own
    identical `Out` enum; they are one datatype here. */
module Forms {
  import opened Base
  import opened Ui

  /** A patch for the error list. */
  datatype Out = Error(patch: Patch<View>) {
    /** `Out::errors`: every output is a patch for the error list. */
    function Errors(): (p: Option<Patch<View>>)
      ensures p.Some? && p.value == patch
    {
      match this
      case Error(patch) => Some(patch)
    }
  }

  function Wrap(ps: seq<Patch<View>>): (outs: seq<Out>)
    ensures |outs| == |ps|
    ensures forall i :: 0 <= i < |ps| ==> outs[i] == Error(ps[i])
  {
    Map(p => Error(p), ps)
  }

  /** What a failure sends: clear the error list, then one item per error, in order. */
  function ErrorOuts(errors: seq<string>): (outs: seq<Out>)
    ensures |outs| == |errors| + 1
    ensures outs[0] == Error(RemoveAll)
    ensures forall i :: 0 <= i < |errors| ==> outs[i + 1] == Error(PushBack(ErrorItem(errors[i])))
  {
    Wrap(ResetPatches(ErrorItems(errors)))
  }

  /** The patches the error list receives from a stream of outputs. */
  function ErrorPatches(outs: seq<Out>): (ps: seq<Patch<View>>)
    ensures |ps| == |outs|
    ensures forall i :: 0 <= i < |outs| ==> Some(ps[i]) == outs[i].Errors()
  {
    Map((o: Out) => o.Errors().value, outs)
  }

  /** After a failure the error list shows exactly the failure's errors, in order, whatever
      it showed before. */
  lemma ErrorListShowsErrors(c: ChildList<View>, errors: seq<string>)
    ensures ApplyAll(c, ErrorPatches(ErrorOuts(errors)))
      == Some(Children(c.statics, c.nodes[..c.statics] + ErrorItems(errors)))
  {
    assert ErrorPatches(ErrorOuts(errors)) == ResetPatches(ErrorItems(errors));
    ApplyResetPatches(c, ErrorItems(errors));
  }
}
