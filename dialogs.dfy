/**
 * What the permission and options dialogs do with the button the user
 * pressed. `runModal` returns 1000 for the first button, 1001 for the
 * second, and so on; after `abortModal` it returns -1001. The modal's
 * return code and whether the dialog was still live when it returned
 * (`wasProcessing`) are inputs.
 */
module Dialogs {
  import opened Common
  import opened Notification

  /** NSAlertFirstButtonReturn. */
  const FirstButtonReturn: int := 1000
  /** NSModalResponseAbort, what `runModal` returns once `abortModal` ran. */
  const AbortReturn: int := -1001
  /** The options dialog shows at most this many option buttons. */
  const MaxOptionButtons: nat := 4
  const OtherButton: string := "Other..."

  datatype Response =
    | SendKeystroke(keystroke: string)   // after a short delay, `sendKeystroke`
    | FocusTerminal                      // bring Terminal forward, send nothing
    | NoResponse

  const YesNo: seq<OptionItem> := [OptionItem("Yes", "y"), OptionItem("No", "n")]

  /** The buttons of a permission dialog: the notification's options, or
      Yes/No when it has none. */
  function PermissionButtons(n: NotificationData): seq<OptionItem>
  {
    if n.options == [] then YesNo else n.options
  }

  /** The option buttons of an options dialog: the first four options. */
  function OptionButtons(n: NotificationData): seq<OptionItem>
  {
    n.options[..Min(|n.options|, MaxOptionButtons)]
  }

  /** The button titles of an options dialog, left to right. */
  function OptionButtonTitles(n: NotificationData): (titles: seq<string>)
    ensures |titles| == Min(|n.options|, MaxOptionButtons) + 1
    ensures titles[|titles| - 1] == OtherButton
    ensures forall i :: 0 <= i < |titles| - 1 ==> titles[i] == n.options[i].caption
  {
    var shown := OptionButtons(n);
    seq(|shown|, i requires 0 <= i < |shown| => shown[i].caption) + [OtherButton]
  }

  /** The response of a permission dialog (lines 328-335): a keystroke only
      for a live dialog whose pressed button exists; Yes sends "y" and No
      sends "n" when the notification brought no options. */
  function PermissionResponse(n: NotificationData, wasProcessing: bool, returnCode: int): (r: Response)
    ensures !r.FocusTerminal?
    ensures r.SendKeystroke? <==> wasProcessing && 0 <= returnCode - FirstButtonReturn < |PermissionButtons(n)|
    ensures r.SendKeystroke? && n.options == [] ==>
              r.keystroke == (if returnCode == FirstButtonReturn then "y" else "n")
    ensures r.SendKeystroke? && n.options != [] ==>
              r.keystroke == n.options[returnCode - FirstButtonReturn].keystroke
  {
    var buttons := PermissionButtons(n);
    var index := returnCode - FirstButtonReturn;
    if wasProcessing && 0 <= index < |buttons| then SendKeystroke(buttons[index].keystroke) else NoResponse
  }

  /** The response of an options dialog (lines 370-388): nothing unless the
      dialog was live; the button after the shown options ("Other...")
      focuses Terminal; a shown option sends its keystroke. */
  function OptionsResponse(n: NotificationData, wasProcessing: bool, returnCode: int): (r: Response)
    ensures !wasProcessing ==> r == NoResponse
    ensures r.FocusTerminal? <==> wasProcessing && returnCode - FirstButtonReturn == Min(|n.options|, MaxOptionButtons)
    ensures r.SendKeystroke? <==> wasProcessing && 0 <= returnCode - FirstButtonReturn < Min(|n.options|, MaxOptionButtons)
    ensures r.SendKeystroke? ==> r.keystroke == n.options[returnCode - FirstButtonReturn].keystroke
  {
    var buttons := OptionButtons(n);
    var index := returnCode - FirstButtonReturn;
    if !wasProcessing then NoResponse
    else if index == |buttons| then FocusTerminal
    else if 0 <= index < |buttons| then SendKeystroke(buttons[index].keystroke)
    else NoResponse
  }

  /** An aborted modal never answers, whatever kind of dialog it was. */
  lemma AbortedDialogIsSilent(n: NotificationData)
    ensures PermissionResponse(n, true, AbortReturn) == NoResponse
    ensures OptionsResponse(n, true, AbortReturn) == NoResponse
  {
  }

  /** A keystroke from an options dialog is that of one of the first four
      options, however many options the notification carried. */
  lemma OptionsKeystrokeIsShown(n: NotificationData, wasProcessing: bool, returnCode: int)
    requires OptionsResponse(n, wasProcessing, returnCode).SendKeystroke?
    ensures exists i :: 0 <= i < MaxOptionButtons && i < |n.options|
              && n.options[i].keystroke == OptionsResponse(n, wasProcessing, returnCode).keystroke
  {
    var i := returnCode - FirstButtonReturn;
    assert 0 <= i < MaxOptionButtons && i < |n.options|;
  }
}
