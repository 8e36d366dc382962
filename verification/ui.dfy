/**
 * What the activities do to the screen and to the rest of the app, recorded
 * as values: each modelled operation returns the effects it performs, in order.
 */
module Ui {

  /** The string resources (R.string) the modelled operations show. */
  datatype Text =
    | ProgressConnectingToServer
    | NoNetworkConnection
    | PingResultOk
    | PingResultDown
    | ResendingNoBulletins
    | ResendingNoNetwork
    | Resending
    | AccountAccessTokenLabel(token: string)
    | NoTitle
    | ErrorGettingServerKey
    | ErrorRetrievingContact
    | ErrorMessage
    | LogoutWhileSendingMessage
    | LogoutWhileSendingTitle
    | ResetWhileSendingTitle

  /** The error-log lines written on the access-token path. */
  datatype LogLine =
    | ServerResponseWasEmpty
    | ServerNotAvailableLog
    | AccessTokenNotFoundLog
    | ExceptionRetrievingAccount

  datatype Effect =
    | ShowProgressDialog(title: Text)
    | DismissProgressDialog
    | Toast(text: Text)
    | ShowMessage(message: Text, title: Text)
    | ShowErrorMessage(message: Text, title: Text)
    | ShowConfirmationDialog
    | LogError(line: LogLine)
    | StartPingTask(url: string)
    | StartAccessTokenTask
    | StartResendService(serverIP: string, serverPublicKey: string)
    | ClearKeyPair
    | Finish

  /** A message dialog the user has to read and dismiss. */
  predicate IsMessage(e: Effect) {
    e.ShowMessage? || e.ShowErrorMessage?
  }

  /** The effects show exactly one message, and it is the last thing they do. */
  predicate EndsInOnlyMessage(effects: seq<Effect>) {
    |effects| > 0 && IsMessage(effects[|effects| - 1]) &&
    forall i :: 0 <= i < |effects| - 1 ==> !IsMessage(effects[i])
  }
}
