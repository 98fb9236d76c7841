/**
 * The `alert` slice of the Redux store: it holds the properties of the one
 * alert currently shown, or nothing.
 */
module AlertSlice {
  import opened Js

  datatype Position = Position(top: string, right: string)

  /** The payload components dispatch with `showAlert`. */
  datatype AlertProps = AlertProps(message: string, status: string, position: Option<Position>, autoHideDuration: Option<nat>)

  class Alerts {
    var alertProps: Option<AlertProps>

    /** The initial state: no alert. */
    constructor ()
      ensures alertProps == None
    {
      alertProps := None;
    }

    /** `showAlert`: the state becomes exactly the payload. */
    method ShowAlert(payload: AlertProps)
      modifies this
      ensures alertProps == Some(payload)
    {
      alertProps := Some(payload);
    }

    /** `closeAlert`: back to no alert, whatever was shown. */
    method CloseAlert()
      modifies this
      ensures alertProps == None
    {
      alertProps := None;
    }
  }

  /** Showing an alert and closing it, once or twice, leaves the slice in its initial state. */
  method ShowThenClose(alerts: Alerts, payload: AlertProps)
    modifies alerts
    ensures alerts.alertProps.None?
  {
    alerts.ShowAlert(payload);
    alerts.CloseAlert();
    alerts.CloseAlert();
  }
}
