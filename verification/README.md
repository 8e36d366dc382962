# Martus Android: session timer and main-menu server operations

This project models, in Dafny, the decision logic inside two activity classes of
the Martus Android client (`BaseActivity` and
`AbstractMainActivityWithMainMenuHandler`), and proves properties of that model.

- **Inactivity (auto-logout) timer.** Every screen holds a handler and one
  logout callback. `resetInactivityTimer` removes the callback and posts it
  again with the configured timeout, unless the application's "ignore
  inactivity" flag is set. The flag is set while bulletins are being sent.
  `stopInactivityTimer` only removes the callback. User interaction and
  resume reset the timer; stop stops it. The handler is modelled as the
  sequence of pending postings of the callback (`Activity.InactivityHandler`),
  so "at most one callback is pending" is proved, not built in. The flag is
  read through the static accessor `MartusApplication.isIgnoreInactivity()`,
  so every activity reads the same flag. In the model there is one
  `Activity.MartusApplication` object, and every activity holds a reference
  to it (`parentApp`). The code that sets the flag is not part of this model.
  The event `SetIgnoreInactivity` of the timer state stands for it.
- **Timeout.** The setting is the stored text, "7" by default, read with
  `Integer.valueOf` (`DecimalText.ParseInt`). It is multiplied by 60000 ms in
  `long` arithmetic, which never wraps for an `int` setting.
- **Desktop key file.** The key file is `<parent of cache dir>/shared_prefs/desktopHQ.xml`.
  Its signature file sits beside it with ".sig" appended to the name. The
  signature is checked only when the key file exists. Pathnames follow
  `java.io.File` (`Files`).
- **Access token.** The background task returns the gateway's response, or
  null when the gateway threw (the gateway may also return null itself). `processResult` maps that to exactly one of
  four outcomes: token shown, token not found, server not available, or
  generic retrieval error. An OK code with a null or empty vector is logged as
  empty. It then fails in `get(0)` and ends in the generic branch, never in a
  token. So do a null response and a null result code.
- **Ping.** With no network, ping only shows a toast. Otherwise the result is
  "ok" unless the XML-RPC call throws `XmlRpcException`, in which case it is "down".
- **Resend.** The pending count is the number of zip files in the app
  directory plus those in its "failed" directory, which counts only when it
  exists. Resend stops if nothing is pending, then stops if there is no
  network. Otherwise it starts the resend service with the server's address
  and key.
- **Busy-sending guards.** While the ignore flag is set, quit does not log
  out and reset-account does not ask for confirmation.

Each UI-facing operation returns the effects it performs, in order, as
`Ui.Effect` values: dialogs, toasts, task and service starts, and
key-pair clearing. Of the log lines, only those `processResult` writes are
recorded. The network, the directory listings, the zip filter, URL
construction and signature checking are inputs to the operations.

Behaviours the code does not implement (the model follows the code):
- An OK response with no payload is not a separate "empty response" outcome. It is the generic error.
- A non-positive timeout is not rejected. It is simply multiplied.
- No operation is cancelled because the session is locked.
- The handler is private to `BaseActivity`, and only `resetInactivityTimer`
  and `stopInactivityTimer` touch it. So a change of the ignore flag leaves an
  already pending callback in place until the next reset or stop
  (`Activity.FlagAloneKeepsPendingCallback`). What the callback does when it
  runs (`LogOutProcess`) is not shown, and it is not part of this model.
- A failed key-file check throws `FileVerificationException`. No
  "Missing"/"Tampered" result is returned.

## Model

| member | source | states |
|---|---|---|
| DecimalText.ParseInt | martus-android/src/org/martus/android/BaseActivity.java:57 | `Integer.valueOf`: a value is produced only for non-empty text, and it lies in the `int` range |
| DecimalText.ParseIntRejects | martus-android/src/org/martus/android/BaseActivity.java:57 | NumberFormatException (no value) for text with no digit after the optional sign, with a non-digit after it, or denoting a number outside the `int` range |
| DecimalText.ParseIntAccepts | martus-android/src/org/martus/android/BaseActivity.java:57 | every well-formed text is read as its value: an optional sign, one or more ASCII digits (leading zeros allowed), and a value in the `int` range |
| DecimalText.ParseIntExamples | martus-android/src/org/martus/android/BaseActivity.java:57 | "+7" and "007" are read as 7, and "-0" as 0 |
| DecimalText.ParseIntReadsDigits | martus-android/src/org/martus/android/BaseActivity.java:57 | text read as `v` is an optional sign and decimal digits denoting the magnitude of `v`; a negative value comes only with '-' |
| DecimalText.ParseIntOfToDecimal | martus-android/src/org/martus/android/BaseActivity.java:57 | every `int` written in decimal is read back as itself |
| Activity.TimeoutSetting | martus-android/src/org/martus/android/BaseActivity.java:57 | with no stored setting the value is 7 minutes; any value read is an `int` |
| Activity.InactivityTimeout | martus-android/src/org/martus/android/BaseActivity.java:34-59 | the timeout is a whole number of minutes equal to the setting, and positive for a positive setting |
| Activity.DefaultTimeout | martus-android/src/org/martus/android/BaseActivity.java:57-59 | the default setting gives 420000 ms |
| Activity.TimeoutFitsInLong | martus-android/src/org/martus/android/BaseActivity.java:59 | the `int` × `long` multiplication never leaves the `long` range |
| Activity.StoredSettingRoundTrip | martus-android/src/org/martus/android/BaseActivity.java:57 | a setting stored as decimal text is read as the same minutes |
| Activity.AtMostOneCallbackPending | martus-android/src/org/martus/android/BaseActivity.java:62-76 | over any sequence of interactions, resumes, stops and flag changes, at most one logout callback is pending |
| Activity.PendingDelayIsTimeout | martus-android/src/org/martus/android/BaseActivity.java:62-71 | every pending callback waits exactly the activity's timeout |
| Activity.NoCallbackWhileIgnoring | martus-android/src/org/martus/android/BaseActivity.java:62-76 | once the flag is set and nothing is pending, nothing is posted again until the flag is cleared |
| Activity.FlagAloneKeepsPendingCallback | martus-android/src/org/martus/android/BaseActivity.java:62-71 | setting the flag does not remove a callback that is already pending |
| Activity.InactivityHandler.RemoveCallbacks | martus-android/src/org/martus/android/BaseActivity.java:64 | removing the callback leaves none of its postings pending |
| Activity.InactivityHandler.PostDelayed | martus-android/src/org/martus/android/BaseActivity.java:67 | posting adds exactly one pending callback with the given delay |
| Activity.BaseActivity.OnCreate | martus-android/src/org/martus/android/BaseActivity.java:50-60 | a new activity has a fresh handler with nothing pending, and its timeout is the stored setting × 60000 ms, within `long` range |
| Activity.BaseActivity.ResetInactivityTimer | martus-android/src/org/martus/android/BaseActivity.java:62-71 | afterwards exactly one callback with delay = timeout is pending when the flag is clear, and none when it is set |
| Activity.BaseActivity.StopInactivityTimer | martus-android/src/org/martus/android/BaseActivity.java:73-76 | afterwards no callback is pending; timeout and flag are unchanged |
| Activity.BaseActivity.OnUserInteraction | martus-android/src/org/martus/android/BaseActivity.java:121-124 | user interaction performs a reset |
| Activity.BaseActivity.OnResume | martus-android/src/org/martus/android/BaseActivity.java:126-130 | resume performs a reset |
| Activity.BaseActivity.OnStop | martus-android/src/org/martus/android/BaseActivity.java:132-136 | stop performs a stop |
| Files.GetParent | martus-android/src/org/martus/android/BaseActivity.java:189 | `getParent` is null exactly for "/" and a single relative name; otherwise it drops the last name |
| Files.ChildParts | martus-android/src/org/martus/android/BaseActivity.java:183 | `new File(parent, child)` has name `child` and parent `parent` |
| Files.ParentAndName | martus-android/src/org/martus/android/BaseActivity.java:183 | every pathname with a name is rebuilt from its parent and name |
| Activity.DesktopKeyFile | martus-android/src/org/martus/android/BaseActivity.java:188-191 | the key file is named desktopHQ.xml, in a directory named shared_prefs whose parent is the cache directory's parent |
| Activity.SignatureFile | martus-android/src/org/martus/android/BaseActivity.java:183 | the signature file has the same parent and the file's name followed by ".sig" |
| Activity.VerifySavedDesktopKeyFile | martus-android/src/org/martus/android/BaseActivity.java:180-186 | the signature is checked only when the key file exists, on that file and its ".sig" sibling; a missing file raises nothing; it passes only when the check succeeds |
| MainMenu.RetrieveAccessTokenInBackground | martus-android/src/org/martus/android/AbstractMainActivityWithMainMenuHandler.java:397-413 | the task yields whatever the gateway returned, null included, and null when the gateway threw; a non-null result is always the gateway's own response |
| MainMenu.AccessTokenOutcome | martus-android/src/org/martus/android/AbstractMainActivityWithMainMenuHandler.java:334-365 | each of the four outcomes, iff its condition: NO_TOKEN_AVAILABLE before the other non-OK codes; a token only for OK with a non-empty vector, and it is the first element; the generic error for null response, null code, or OK with null/empty vector |
| MainMenu.OutcomeMessage | martus-android/src/org/martus/android/AbstractMainActivityWithMainMenuHandler.java:352-363 | each outcome shows one message dialog: the token label with no title iff a token is shown; the "error getting server key" text for token not found and server not available; the "error retrieving contact" text for the generic error; every error under the error title |
| MainMenu.ProcessResult | martus-android/src/org/martus/android/AbstractMainActivityWithMainMenuHandler.java:334-365 | the progress dialog is dismissed first, exactly one message is shown, last, and it is the outcome's; "response was empty" is logged iff the code is OK and the vector null or empty |
| MainMenu.AccessTokenRequest | martus-android/src/org/martus/android/AbstractMainActivityWithMainMenuHandler.java:397-421 | whatever the gateway does, the dialog opens, closes, and exactly one message follows; it is a token message iff the server answered OK with a non-empty vector, and then it shows the vector's first element; a gateway that threw or returned null ends in the "error retrieving contact" message |
| MainMenu.NotFoundLooksLikeUnavailable | martus-android/src/org/martus/android/AbstractMainActivityWithMainMenuHandler.java:353-360 | token-not-found and server-not-available show the same message |
| MainMenu.PingInBackground | martus-android/src/org/martus/android/AbstractMainActivityWithMainMenuHandler.java:374-388 | the ping result is "ok" iff the call returned, "down" iff it threw XmlRpcException |
| MainMenu.PingOutcome | martus-android/src/org/martus/android/AbstractMainActivityWithMainMenuHandler.java:329-332 | a started ping dismisses the progress dialog and then toasts one result: "ok" iff the call returned, "down" iff it threw XmlRpcException |
| MainMenu.PingUrl | martus-android/src/org/martus/android/AbstractMainActivityWithMainMenuHandler.java:284 | the URL is "http://", the server address, then "/RPC2" |
| MainMenu.ListAccepted | martus-android/src/org/martus/android/AbstractMainActivityWithMainMenuHandler.java:318 | a filtered listing holds exactly the accepted names, each as often as the directory listing does |
| MainMenu.UnsentCountZeroIffNoZip | martus-android/src/org/martus/android/AbstractMainActivityWithMainMenuHandler.java:315-327 | the pending count is zero iff neither the app directory nor an existing failed directory holds a zip file |
| MainMenu.ResendStartsIffBulletinWaiting | martus-android/src/org/martus/android/AbstractMainActivityWithMainMenuHandler.java:297-327 | the resend service starts iff a zip file waits in the app directory or an existing failed directory and the network is up |
| MainMenu.MainMenuActivity.UpdateSettings | martus-android/src/org/martus/android/AbstractMainActivityWithMainMenuHandler.java:127-131 | the server key and address come from the server settings, "" where none is stored |
| MainMenu.MainMenuActivity.OnResume | martus-android/src/org/martus/android/AbstractMainActivityWithMainMenuHandler.java:54-60 | resume resets the inactivity timer, then reloads the server settings |
| MainMenu.MainMenuActivity.PingServer | martus-android/src/org/martus/android/AbstractMainActivityWithMainMenuHandler.java:277-295 | with no network only the "no network" toast, before any task; otherwise the progress dialog first, and the ping task to the server's RPC2 URL iff the URL can be built |
| MainMenu.MainMenuActivity.GetNumberOfUnsentBulletins | martus-android/src/org/martus/android/AbstractMainActivityWithMainMenuHandler.java:315-327 | the count is the app directory's zip files plus the failed directory's, which adds nothing when it does not exist; it is at least one iff some zip file is waiting |
| MainMenu.MainMenuActivity.ResendFailedBulletins | martus-android/src/org/martus/android/AbstractMainActivityWithMainMenuHandler.java:297-313 | with nothing pending it stops with "no bulletins" whatever the network; then no network stops with "no network"; the service starts iff count ≥ 1 and the network is up, with the server's address and key |
| MainMenu.MainMenuActivity.Quit | martus-android/src/org/martus/android/AbstractMainActivityWithMainMenuHandler.java:148-157 | the key pair is cleared iff the ignore flag is clear; otherwise only the "logout while sending" message |
| MainMenu.MainMenuActivity.DeleteUserAccount | martus-android/src/org/martus/android/AbstractMainActivityWithMainMenuHandler.java:133-140 | the confirmation dialog is shown iff the ignore flag is clear; otherwise the "reset while sending" message |

## Left out

- Activity.BaseActivity.OnCreate: requires the stored timeout setting to parse. For any other text, `Integer.valueOf` throws out of `onCreate` and no activity comes into being.
- DecimalText.ParseInt: accepts only ASCII digits (`Character.digit` also accepts other Unicode decimal digits). It accepts a leading '+' as Java SE 7 does; older Android runtimes reject it.
- Files.Child: takes only plain names (non-empty, no '/'); `java.io.File`'s normalisation of other child strings is not modelled.
- MainMenu.MainMenuActivity.OnResume: the Tor switch synchronisation it also performs is UI wiring and is not modelled.
- MainMenu.MainMenuActivity.PingServer: whether `new URL(...)` throws `MalformedURLException` is an input (`urlWellFormed`); URL parsing is not modelled.
- MainMenu.PingInBackground: unchecked exceptions from `XmlRpcClient.execute` (they escape the task) are not modelled; only its return and `XmlRpcException`.
- `NetworkInterfaceConstants` is not part of this model. The two result codes are stood for by two distinct strings, and only their distinctness is used.
- Result-vector elements that are null or not strings are not modelled.
- `serverIP` and `serverPublicKey` are null until the first `onResume`. They start as "" here, because every menu operation runs after `onResume`.
- The app directory is assumed to exist and be listable, so its listing is never null. `getAppDir` is not part of this model.
- MainMenu.MainMenuActivity.GetNumberOfUnsentBulletins: the failed directory is either missing or listed. An existing failed path whose `list` returns null (not a directory, or an I/O error) makes line 324 throw NullPointerException out of `resendFailedBulletins`; that case is not modelled.
- Log lines other than those of `processResult` are not recorded: "TIMEOUT IS" in `onCreate`, the timer's warning lines, "Ping failed", and "Server connection failed!" in the access-token task.
- Real-time firing of the logout callback, `LogOutProcess`, `EmptyHandler` and the `Handler`/`AsyncTask` threading are not modelled. The handler is only the set of pending postings.
- Network availability, directory listings, `ZipFileFilter`, the XML-RPC client, `MobileClientSideNetworkGateway`, and the signature check (`MartusUtilities.verifyFileAndSignature` with the account's public key) are inputs.
- Crypto library calls are foreign code and are not modelled: public codes, `exportClientPublicKey`, `clearKeyPair` (only recorded as an effect), and `createKeyPairCopy`.
- Menu inflation and dispatch, dialogs, toasts and intents are UI glue and are only recorded as effects. This includes the access-token menu item falling through to `super`. The public-code dialog, version toast, MPI export/email/bulletin sharing, contact and docs dialogs, and the Tor toggle are not modelled.
