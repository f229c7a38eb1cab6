/** What the forms ask of the user interface outside them, recorded in the order they ask. */
module Presenter {

  datatype Effect =
    | Notified(title: string, text: string)  // a success dialog is shown
    | Navigated(path: string)                // the browser is sent to another page
}
