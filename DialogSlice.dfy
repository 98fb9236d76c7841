/**
 * The `dialog` slice of the Redux store: the properties of the open
 * confirmation dialog, if any, and whether the notification dialog is open.
 */
module DialogSlice {
  import opened Js

  /** The payload of `showConfirmDialog`: the dialog's named settings. */
  type ConfirmProps = map<string, string>

  class Dialogs {
    var confirmDialogProps: Option<ConfirmProps>
    var isNotificationDialogOpen: bool

    /** The initial state: no confirmation dialog, notification dialog closed. */
    constructor ()
      ensures confirmDialogProps == None && !isNotificationDialogOpen
    {
      confirmDialogProps := None;
      isNotificationDialogOpen := false;
    }

    /** `showConfirmDialog`: sets the confirmation dialog to the payload; the flag is untouched. */
    method ShowConfirmDialog(payload: ConfirmProps)
      modifies this
      ensures confirmDialogProps == Some(payload)
      ensures isNotificationDialogOpen == old(isNotificationDialogOpen)
    {
      confirmDialogProps := Some(payload);
    }

    /** `closeConfirmDialog`: clears the confirmation dialog; the flag is untouched. */
    method CloseConfirmDialog()
      modifies this
      ensures confirmDialogProps == None
      ensures isNotificationDialogOpen == old(isNotificationDialogOpen)
    {
      confirmDialogProps := None;
    }

    /** `toggleNotificationDialog`: negates the flag and nothing else. */
    method ToggleNotificationDialog()
      modifies this
      ensures isNotificationDialogOpen == !old(isNotificationDialogOpen)
      ensures confirmDialogProps == old(confirmDialogProps)
    {
      isNotificationDialogOpen := !isNotificationDialogOpen;
    }
  }

  /** Toggling the notification dialog twice restores the whole state. */
  method ToggleTwiceIsIdentity(d: Dialogs)
    modifies d
    ensures d.isNotificationDialogOpen == old(d.isNotificationDialogOpen)
    ensures d.confirmDialogProps == old(d.confirmDialogProps)
  {
    d.ToggleNotificationDialog();
    d.ToggleNotificationDialog();
  }
}
