/** The text-input widget shared by the forms: it owns the value of one `<input>` or
    `<textarea>`, pushes its value into the element once the element exists, and reports
    every change the user makes. */
module Widgets {
  import opened Base
  import opened Ui

  /** The element handed over after the view is built, a value to show, or a request to
      re-read the element (sent on every key-up and after every `SetValue`). */
  datatype TextInputIn = PostBuild(input: Element) | SetValue(value: string) | UpdateValue

  datatype TextInputOut = UpdatedValue(value: string)

  type InputEffect = Effect<TextInputOut, TextInputIn>

  class TextInput {
    var oInput: Option<Element>
    var value: string
    var placeholder: string

    /** A widget not yet attached to an element. */
    constructor (value: string, placeholder: string)
      ensures oInput == None
      ensures this.value == value && this.placeholder == placeholder
    {
      oInput := None;
      this.value := value;
      this.placeholder := placeholder;
    }

    /** The element an update to `msg` may write: the new element on `PostBuild`, the
        attached one on `SetValue`, none otherwise. */
    function Target(msg: TextInputIn): set<object>
      reads this
    {
      match msg
      case PostBuild(input) => {input}
      case SetValue(_) => Handle(oInput)
      case UpdateValue => {}
    }

    method Update(msg: TextInputIn) returns (effects: seq<InputEffect>)
      modifies this, Target(msg)
      ensures placeholder == old(placeholder)
      // The element takes the widget's value and becomes the attached element.
      ensures msg.PostBuild? ==>
        && msg.input.value == old(value)
        && oInput == Some(msg.input) && value == old(value)
        && effects == []
      // The attached element, if any, shows the new value; a re-read is always scheduled.
      ensures msg.SetValue? ==>
        && oInput == old(oInput) && value == old(value)
        && (oInput.Some? ==> oInput.value.value == msg.value)
        && effects == [Spawn(UpdateValue)]
      // Without an element a re-read does nothing.
      ensures msg.UpdateValue? && old(oInput).None? ==>
        oInput == None && value == old(value) && effects == []
      // With one, the widget adopts the element's text and reports it exactly when it changed.
      ensures msg.UpdateValue? && old(oInput).Some? ==>
        && oInput == old(oInput)
        && value == oInput.value.value
        && effects == (if value != old(value) then [Send(UpdatedValue(value))] else [])
    {
      match msg
      case PostBuild(input) =>
        input.value := value;
        oInput := Some(input);
        effects := [];
      case SetValue(v) =>
        if oInput.Some? {
          oInput.value.value := v;
        }
        effects := [Spawn(UpdateValue)];
      case UpdateValue =>
        effects := [];
        if oInput.Some? {
          var oldValue := value;
          value := oInput.value.value;
          if oldValue != value {
            effects := [Send(UpdatedValue(value))];
          }
        }
    }
  }

  /** Two re-reads in a row report at most one change: the second finds the widget's value
      already equal to the element's text. */
  method UpdateValueTwice(t: TextInput) returns (first: seq<InputEffect>, second: seq<InputEffect>)
    modifies t
    ensures |first| <= 1 && second == []
    ensures t.oInput.Some? ==> t.value == t.oInput.value.value
  {
    first := t.Update(UpdateValue);
    second := t.Update(UpdateValue);
  }

  /** A `SetValue` that arrives before the view is built is lost: once the element is
      attached it shows the widget's initial value, and the scheduled re-read reports nothing. */
  method SetValueBeforeBuild(initial: string, placeholder: string, v: string, el: Element)
    returns (t: TextInput, effects: seq<InputEffect>)
    modifies el
    ensures fresh(t)
    ensures t.value == initial && el.value == initial && t.oInput == Some(el)
    ensures effects == [Spawn(UpdateValue)]
  {
    t := new TextInput(initial, placeholder);
    var shown := t.Update(SetValue(v));
    var built := t.Update(PostBuild(el));
    var reread := t.Update(UpdateValue);
    effects := shown + built + reread;
  }

  /** A `SetValue` after the view is built reaches the element, and the scheduled re-read
      reports the new value exactly when it differs from the widget's previous one. */
  method SetValueAfterBuild(t: TextInput, v: string) returns (effects: seq<InputEffect>)
    requires t.oInput.Some?
    modifies t, t.oInput.value
    ensures t.value == v && t.oInput == old(t.oInput) && t.oInput.value.value == v
    ensures effects == [Spawn(UpdateValue)] + (if v != old(t.value) then [Send(UpdatedValue(v))] else [])
  {
    var shown := t.Update(SetValue(v));
    var reread := t.Update(UpdateValue);
    effects := shown + reread;
  }
}
