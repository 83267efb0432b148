/**
 * The confirmation dialog: it insists on a dialog id and a message in its
 * arguments, falls back to "OK" and "Cancel" for captions it was not given,
 * and forwards its buttons and its cancellation to the attached listener.
 */
module AppDialog {
  import opened Wrappers
  import opened Decimal
  import opened Platform

  /** The argument keys. */
  const DialogIdKey: string := "id"
  const DialogMessageKey: string := "message"
  const DialogPositiveRidKey: string := "positive_rid"
  const DialogNegativeRidKey: string := "negative_rid"

  /** The resource ids the build assigns to `R.string.ok` and `R.string.cancel`. */
  datatype StringResources = StringResources(ok: Int32, cancel: Int32)

  /**
   * The dialog `onCreateDialog` builds: its message and button captions, and the
   * id and arguments its button handlers captured.
   */
  datatype AlertDialog = AlertDialog(
    dialogId: Int32, message: string, positiveCaption: Int32, negativeCaption: Int32, arguments: Bundle)

  /** A callback into the listener, with the values passed to it. */
  datatype DialogEvent =
    | PositiveDialogResult(listener: Host, dialogId: Int32, args: Bundle)
    | NegativeDialogResult(listener: Host, dialogId: Int32, args: Bundle)
    | DialogCancelled(listener: Host, dialogId: Int32)

  /**
   * The dialog built from the arguments: refused unless there are arguments with a
   * non-zero id and a message; a caption id of 0 becomes the default resource, and
   * any other caption id is kept.
   */
  function CreateDialog(arguments: Option<Bundle>, res: StringResources): (r: Result<AlertDialog, Exception>)
    ensures r.Err? ==> r.error == IllegalArgument
    ensures r.Ok? <==> arguments.Some? && GetInt(arguments.value, DialogIdKey) != 0
                       && GetString(arguments.value, DialogMessageKey).Some?
    ensures r.Ok? ==>
      var args := arguments.value;
      var d := r.value;
      && d.arguments == args
      && DialogIdKey in args && args[DialogIdKey] == IntValue(d.dialogId) && d.dialogId != 0
      && args[DialogMessageKey] == StringValue(d.message)
      && (GetInt(args, DialogPositiveRidKey) == 0 ==> d.positiveCaption == res.ok)
      && (GetInt(args, DialogPositiveRidKey) != 0 ==> args[DialogPositiveRidKey] == IntValue(d.positiveCaption))
      && (GetInt(args, DialogNegativeRidKey) == 0 ==> d.negativeCaption == res.cancel)
      && (GetInt(args, DialogNegativeRidKey) != 0 ==> args[DialogNegativeRidKey] == IntValue(d.negativeCaption))
  {
    match arguments
    case None => Err(IllegalArgument)
    case Some(args) =>
      var dialogId := GetInt(args, DialogIdKey);
      var message := GetString(args, DialogMessageKey);
      if dialogId == 0 || message.None? then Err(IllegalArgument)
      else
        var positive := GetInt(args, DialogPositiveRidKey);
        var negative := GetInt(args, DialogNegativeRidKey);
        Ok(AlertDialog(dialogId, message.value,
                       if positive == 0 then res.ok else positive,
                       if negative == 0 then res.cancel else negative,
                       args))
  }

  class AppDialog {
    var arguments: Option<Bundle>
    var dialogEvents: Option<Host>

    constructor (arguments: Option<Bundle>)
      ensures this.arguments == arguments && dialogEvents == None
    {
      this.arguments := arguments;
      dialogEvents := None;
    }

    /** `onAttach`: the context must implement `DialogEvents`, and becomes the listener. */
    method OnAttach(context: Host) returns (r: Outcome<Exception>)
      modifies this
      ensures context.implementsDialogEvents ==> r == Pass && dialogEvents == Some(context)
      ensures !context.implementsDialogEvents ==> r == Fail(ClassCast) && dialogEvents == old(dialogEvents)
      ensures arguments == old(arguments)
    {
      if !context.implementsDialogEvents {
        return Fail(ClassCast);
      }
      dialogEvents := Some(context);
      r := Pass;
    }

    /** `onDetach`: forgets the listener. */
    method OnDetach()
      modifies this
      ensures dialogEvents == None && arguments == old(arguments)
    {
      dialogEvents := None;
    }

    /** `onCreateDialog`: reads the arguments, then replaces zero caption ids by the defaults. */
    method OnCreateDialog(res: StringResources) returns (r: Result<AlertDialog, Exception>)
      ensures r == CreateDialog(arguments, res)
    {
      if arguments.None? {
        return Err(IllegalArgument);
      }
      var args := arguments.value;
      var dialogId := GetInt(args, DialogIdKey);
      var messageString := GetString(args, DialogMessageKey);
      if dialogId == 0 || messageString.None? {
        return Err(IllegalArgument);
      }
      var positiveStringId := GetInt(args, DialogPositiveRidKey);
      if positiveStringId == 0 {
        positiveStringId := res.ok;
      }
      var negativeStringId := GetInt(args, DialogNegativeRidKey);
      if negativeStringId == 0 {
        negativeStringId := res.cancel;
      }
      r := Ok(AlertDialog(dialogId, messageString.value, positiveStringId, negativeStringId, args));
    }

    /**
     * The positive button: passes the id and arguments the dialog captured to the
     * listener attached at the time of the click; without one the call dereferences null.
     */
    method OnPositiveClick(d: AlertDialog) returns (r: Result<DialogEvent, Exception>)
      ensures dialogEvents.None? ==> r == Err(NullPointer)
      ensures dialogEvents.Some? ==> r == Ok(PositiveDialogResult(dialogEvents.value, d.dialogId, d.arguments))
    {
      if dialogEvents.None? {
        return Err(NullPointer);
      }
      r := Ok(PositiveDialogResult(dialogEvents.value, d.dialogId, d.arguments));
    }

    /** The negative button: as the positive one, to `onNegativeDialogResult`. */
    method OnNegativeClick(d: AlertDialog) returns (r: Result<DialogEvent, Exception>)
      ensures dialogEvents.None? ==> r == Err(NullPointer)
      ensures dialogEvents.Some? ==> r == Ok(NegativeDialogResult(dialogEvents.value, d.dialogId, d.arguments))
    {
      if dialogEvents.None? {
        return Err(NullPointer);
      }
      r := Ok(NegativeDialogResult(dialogEvents.value, d.dialogId, d.arguments));
    }

    /**
     * `onCancel`: reports the argument id to the listener while one is attached, and
     * does nothing otherwise; with a listener but no arguments it dereferences null.
     */
    method OnCancel() returns (r: Result<Option<DialogEvent>, Exception>)
      ensures dialogEvents.None? ==> r == Ok(None)
      ensures dialogEvents.Some? && arguments.None? ==> r == Err(NullPointer)
      ensures dialogEvents.Some? && arguments.Some? ==>
        r == Ok(Some(DialogCancelled(dialogEvents.value, GetInt(arguments.value, DialogIdKey))))
    {
      if dialogEvents.None? {
        return Ok(None);
      }
      if arguments.None? {
        return Err(NullPointer);
      }
      r := Ok(Some(DialogCancelled(dialogEvents.value, GetInt(arguments.value, DialogIdKey))));
    }
  }

  /** With non-zero default resources, a created dialog never shows a caption id of 0. */
  lemma CaptionsNeverZero(arguments: Option<Bundle>, res: StringResources)
    requires res.ok != 0 && res.cancel != 0
    requires CreateDialog(arguments, res).Ok?
    ensures CreateDialog(arguments, res).value.positiveCaption != 0
    ensures CreateDialog(arguments, res).value.negativeCaption != 0
  {
  }

  /**
   * A listener sees the same dialog id whether the user confirms, declines or
   * cancels a dialog that was created, and the confirmation carries the arguments.
   */
  method ClickAndCancel(dialog: AppDialog, res: StringResources)
      returns (clicked: Result<DialogEvent, Exception>, cancelled: Result<Option<DialogEvent>, Exception>)
    requires dialog.dialogEvents.Some? && CreateDialog(dialog.arguments, res).Ok?
    ensures var d := CreateDialog(dialog.arguments, res).value;
      && clicked == Ok(PositiveDialogResult(dialog.dialogEvents.value, d.dialogId, dialog.arguments.value))
      && cancelled == Ok(Some(DialogCancelled(dialog.dialogEvents.value, d.dialogId)))
  {
    var created := dialog.OnCreateDialog(res);
    clicked := dialog.OnPositiveClick(created.value);
    cancelled := dialog.OnCancel();
  }
}
