/**
 * The dialog that relabels a favourite. Its text field starts as the current
 * label and is set back to it whenever the dialog is shown again.
 */
module EditLocationDialog {
  import opened Options
  import opened JsString
  import opened SaveLocationDialog

  class EditDialog {
    /** The text field (the component's `label` state). */
    var text: string
    /** The `visible` and `initialLabel` props as last rendered. */
    var visible: bool
    var initialLabel: string

    constructor (isVisible: bool, initial: string)
      ensures text == initial && visible == isVisible && initialLabel == initial
    {
      text, visible, initialLabel := initial, isVisible, initial;
    }

    /**
     * The parent re-rendered the dialog. When `visible` or `initialLabel`
     * changed and the dialog is visible, the field is set back to the label.
     */
    method Rerender(isVisible: bool, initial: string)
      modifies this
      ensures visible == isVisible && initialLabel == initial
      ensures (isVisible != old(visible) || initial != old(initialLabel)) && isVisible ==> text == initial
      ensures !((isVisible != old(visible) || initial != old(initialLabel)) && isVisible) ==> text == old(text)
    {
      if (isVisible != visible || initial != initialLabel) && isVisible {
        text := initial;
      }
      visible, initialLabel := isVisible, initial;
    }

    /** The user edited the field. */
    method ChangeText(t: string)
      modifies this`text
      ensures text == t
    {
      text := t;
    }

    /** "Save Changes": a blank field does nothing; otherwise the trimmed label goes to `onSave`. The field is left as typed. */
    method Save() returns (calls: seq<DialogCall>)
      ensures SubmittedLabel(text).None? ==> calls == []
      ensures SubmittedLabel(text).Some? ==> calls == [OnSave(Trim(text))]
    {
      var submitted := SubmittedLabel(text);
      calls := if submitted.Some? then [OnSave(submitted.value)] else [];
    }

    /** "Cancel": only `onClose`. */
    method Cancel() returns (calls: seq<DialogCall>)
      ensures calls == [OnClose]
    {
      calls := [OnClose];
    }
  }
}
