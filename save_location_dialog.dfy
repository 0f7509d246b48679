/**
 * The dialog that asks for a label when a search result is starred. Its text
 * field is the only state; "Save" hands the trimmed label to the picker.
 */
module SaveLocationDialog {
  import opened Options
  import opened JsString

  /** What a button of a label dialog calls on its parent. */
  datatype DialogCall = OnSave(name: string) | OnClose

  /** The trim-and-blank guard both label dialogs apply before calling `onSave`. */
  function SubmittedLabel(text: string): (r: Option<string>)
    ensures r.Some? <==> !AllWhitespace(text)
    ensures r.Some? ==> r.value == Trim(text) && r.value != []
  {
    TrimEmptyIffBlank(text);
    var t := Trim(text);
    if t != [] then Some(t) else None
  }

  /** A label that gets through the guard is already trimmed: trimming it again changes nothing. */
  lemma SubmittedLabelIsTrimmed(text: string)
    requires SubmittedLabel(text).Some?
    ensures Trim(SubmittedLabel(text).value) == SubmittedLabel(text).value
    ensures !IsWhitespace(SubmittedLabel(text).value[0])
  {
    TrimIdempotent(text);
  }

  class SaveDialog {
    /** The text field (the component's `label` state). */
    var text: string

    constructor ()
      ensures text == ""
    {
      text := "";
    }

    /** The user edited the field. */
    method ChangeText(t: string)
      modifies this
      ensures text == t
    {
      text := t;
    }

    /**
     * "Save": a blank field does nothing; otherwise the trimmed label goes to
     * `onSave` and the field is emptied, whatever the parent then does with it.
     */
    method Save() returns (calls: seq<DialogCall>)
      modifies this
      ensures SubmittedLabel(old(text)).None? ==> calls == [] && text == old(text)
      ensures SubmittedLabel(old(text)).Some? ==> calls == [OnSave(Trim(old(text)))] && text == ""
    {
      var submitted := SubmittedLabel(text);
      if submitted.Some? {
        calls := [OnSave(submitted.value)];
        text := "";
      } else {
        calls := [];
      }
    }

    /** "Cancel": only `onClose`; the field keeps its text. */
    method Cancel() returns (calls: seq<DialogCall>)
      ensures calls == [OnClose]
    {
      calls := [OnClose];
    }
  }
}
