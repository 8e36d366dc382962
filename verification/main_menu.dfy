/**
 * The main menu's server operations: pinging the server, fetching and showing
 * the account access token, resending bulletins that were not sent, and the
 * guards that keep quit and reset-account from acting while bulletins are
 * being sent.
 */
module MainMenu {
  import opened Wrappers
  import opened Ui
  import opened Activity

  /** The server's result codes the access-token path tells apart. */
  const OK: string := "ok"
  const NO_TOKEN_AVAILABLE: string := "no token available"

  const RPC2_PATH: string := "/RPC2"

  // ---------------------------------------------------------------------------
  // Access token

  /** A server response: its result code and result vector, either of which may be null. */
  datatype NetworkResponse = NetworkResponse(resultCode: Option<string>, resultVector: Option<seq<string>>)

  /** How the gateway call in the background task ended; the response it returns may itself be null. */
  datatype GatewayCall = Responded(response: Option<NetworkResponse>) | Raised

  /** The four ways `processResult` can end. */
  datatype TokenOutcome = TokenShown(token: string) | TokenNotFound | ServerNotAvailable | RetrievalError

  /**
   * `RetrieveAccessTokenTask.doInBackground`: whatever the gateway returned
   * (null included), or null when fetching it threw.
   */
  function RetrieveAccessTokenInBackground(call: GatewayCall): (result: Option<NetworkResponse>)
    ensures call.Responded? ==> result == call.response
    ensures call.Raised? ==> result.None?
    ensures result.Some? ==> call.Responded? && call.response == result
  {
    match call
    case Responded(response) => response
    case Raised => None
  }

  /** The response's code is OK but it carries no token: the vector is null or empty. */
  predicate OkWithoutToken(response: Option<NetworkResponse>) {
    response.Some? && response.value.resultCode == Some(OK) &&
    (response.value.resultVector.None? || response.value.resultVector.value == [])
  }

  /**
   * The branch `processResult` ends in. A null response, a null result code,
   * and an OK code with a null or empty vector all throw inside the try block
   * and end in the generic catch.
   */
  function AccessTokenOutcome(response: Option<NetworkResponse>): (r: TokenOutcome)
    ensures r.TokenShown? <==>
      response.Some? && response.value.resultCode == Some(OK) &&
      response.value.resultVector.Some? && response.value.resultVector.value != []
    ensures r.TokenShown? ==> r.token == response.value.resultVector.value[0]
    ensures r == TokenNotFound <==> response.Some? && response.value.resultCode == Some(NO_TOKEN_AVAILABLE)
    ensures r == ServerNotAvailable <==>
      response.Some? && response.value.resultCode.Some? &&
      response.value.resultCode.value != OK && response.value.resultCode.value != NO_TOKEN_AVAILABLE
    ensures r == RetrievalError <==>
      response.None? || response.value.resultCode.None? || OkWithoutToken(response)
  {
    match response
    case None => RetrievalError
    case Some(NetworkResponse(code, vector)) =>
      match code
      case None => RetrievalError
      case Some(c) =>
        if c != OK then
          if c == NO_TOKEN_AVAILABLE then TokenNotFound else ServerNotAvailable
        else
          match vector
          case None => RetrievalError
          case Some(v) => if v == [] then RetrievalError else TokenShown(v[0])
  }

  /** The one message each outcome shows. */
  function OutcomeMessage(outcome: TokenOutcome): (e: Effect)
    ensures IsMessage(e)
    ensures e.ShowMessage? <==> outcome.TokenShown?
    ensures outcome.TokenShown? ==> e == ShowMessage(AccountAccessTokenLabel(outcome.token), NoTitle)
    ensures outcome == RetrievalError ==> e == ShowErrorMessage(ErrorRetrievingContact, ErrorMessage)
    ensures outcome == TokenNotFound || outcome == ServerNotAvailable ==>
      e == ShowErrorMessage(ErrorGettingServerKey, ErrorMessage)
    ensures !outcome.TokenShown? ==> e.title == ErrorMessage
  {
    match outcome
    case TokenShown(token) => ShowMessage(AccountAccessTokenLabel(token), NoTitle)
    case TokenNotFound => ShowErrorMessage(ErrorGettingServerKey, ErrorMessage)
    case ServerNotAvailable => ShowErrorMessage(ErrorGettingServerKey, ErrorMessage)
    case RetrievalError => ShowErrorMessage(ErrorRetrievingContact, ErrorMessage)
  }

  /** The lines the catch blocks log; showing the token logs nothing. */
  function OutcomeLog(outcome: TokenOutcome): seq<Effect> {
    match outcome
    case TokenShown(_) => []
    case TokenNotFound => [LogError(AccessTokenNotFoundLog)]
    case ServerNotAvailable => [LogError(ServerNotAvailableLog)]
    case RetrievalError => [LogError(ExceptionRetrievingAccount)]
  }

  /**
   * `processResult`: dismiss the progress dialog, log an empty OK response,
   * then log and show what the outcome calls for.
   */
  function ProcessResult(response: Option<NetworkResponse>): (effects: seq<Effect>)
    ensures |effects| >= 2 && effects[0] == DismissProgressDialog
    ensures EndsInOnlyMessage(effects)
    ensures effects[|effects| - 1] == OutcomeMessage(AccessTokenOutcome(response))
    ensures LogError(ServerResponseWasEmpty) in effects <==> OkWithoutToken(response)
  {
    var outcome := AccessTokenOutcome(response);
    [DismissProgressDialog]
    + (if OkWithoutToken(response) then [LogError(ServerResponseWasEmpty)] else [])
    + OutcomeLog(outcome)
    + [OutcomeMessage(outcome)]
  }

  /** `showAccessToken`: show the progress dialog and start the background task. */
  function ShowAccessToken(): seq<Effect> {
    [ShowProgressDialog(ProgressConnectingToServer), StartAccessTokenTask]
  }

  /**
   * Asking for the token, whatever the gateway does, opens the progress
   * dialog, closes it, and then shows exactly one message; a token is shown
   * only when the server answered OK with a non-empty vector, and it is the
   * vector's first element.
   */
  lemma AccessTokenRequest(call: GatewayCall)
    ensures var effects := ShowAccessToken() + ProcessResult(RetrieveAccessTokenInBackground(call));
      effects[0] == ShowProgressDialog(ProgressConnectingToServer) &&
      effects[2] == DismissProgressDialog &&
      EndsInOnlyMessage(effects) &&
      (effects[|effects| - 1].ShowMessage? <==>
        call.Responded? && call.response.Some? && call.response.value.resultCode == Some(OK) &&
        call.response.value.resultVector.Some? && call.response.value.resultVector.value != []) &&
      (effects[|effects| - 1].ShowMessage? ==>
        effects[|effects| - 1] ==
          ShowMessage(AccountAccessTokenLabel(call.response.value.resultVector.value[0]), NoTitle)) &&
      ((call.Raised? || call.response.None?) ==>
        effects[|effects| - 1] == ShowErrorMessage(ErrorRetrievingContact, ErrorMessage))
  {
  }

  /** Token not found and server not available show the same message. */
  lemma NotFoundLooksLikeUnavailable()
    ensures OutcomeMessage(TokenNotFound) == OutcomeMessage(ServerNotAvailable)
  {
  }

  // ---------------------------------------------------------------------------
  // Ping

  /** How `XmlRpcClient.execute` ended. */
  datatype RpcCall = Returned | XmlRpcFault

  /** `PingTask.doInBackground`: "ok" unless the ping call throws an XmlRpcException. */
  function PingInBackground(call: RpcCall): (result: Text)
    ensures result == PingResultOk <==> call == Returned
    ensures result == PingResultDown <==> call == XmlRpcFault
  {
    var result := PingResultOk;
    match call
    case Returned => result
    case XmlRpcFault => PingResultDown
  }

  /** `processPingResult`: close the progress dialog and toast the result. */
  function ProcessPingResult(result: Text): seq<Effect> {
    [DismissProgressDialog, Toast(result)]
  }

  /**
   * A started ping closes the progress dialog and then toasts exactly one
   * result: "ok" iff the call returned, "down" iff it threw XmlRpcException.
   */
  lemma PingOutcome(call: RpcCall)
    ensures var effects := ProcessPingResult(PingInBackground(call));
      |effects| == 2 && effects[0] == DismissProgressDialog && effects[1].Toast? &&
      (effects[1] == Toast(PingResultOk) <==> call == Returned) &&
      (effects[1] == Toast(PingResultDown) <==> call == XmlRpcFault)
  {
  }

  /** The URL the ping goes to. */
  function PingUrl(serverIP: string): (url: string)
    ensures |url| == |serverIP| + 12
    ensures url[..7] == "http://" && url[|url| - 5..] == RPC2_PATH
    ensures url[7..|url| - 5] == serverIP
  {
    "http://" + serverIP + RPC2_PATH
  }

  // ---------------------------------------------------------------------------
  // Pending bulletins

  /** `File.list(filter)`: the names the filter accepts, each as often as the listing holds it. */
  function ListAccepted(names: seq<string>, accept: string -> bool): (r: seq<string>)
    ensures forall n :: n in r <==> n in names && accept(n)
    ensures forall n :: multiset(r)[n] == if accept(n) then multiset(names)[n] else 0
    decreases |names|
  {
    if names == [] then []
    else
      var rest := ListAccepted(names[1..], accept);
      assert names == [names[0]] + names[1..];
      assert multiset(names) == multiset{names[0]} + multiset(names[1..]);
      (if accept(names[0]) then [names[0]] else []) + rest
  }

  /**
   * The number of bulletins waiting to be sent: the zip files in the app
   * directory plus those in its "failed" directory, which counts only when it
   * exists (`failedDir` is `None` then).
   */
  function UnsentCount(appDir: seq<string>, failedDir: Option<seq<string>>, isZip: string -> bool): int {
    |ListAccepted(appDir, isZip)| + (if failedDir.Some? then |ListAccepted(failedDir.value, isZip)| else 0)
  }

  /** The count is never negative, and it is zero exactly when neither directory holds a zip file. */
  lemma UnsentCountZeroIffNoZip(appDir: seq<string>, failedDir: Option<seq<string>>, isZip: string -> bool)
    ensures UnsentCount(appDir, failedDir, isZip) >= 0
    ensures UnsentCount(appDir, failedDir, isZip) == 0 <==>
      (forall n :: n in appDir ==> !isZip(n)) &&
      (failedDir.Some? ==> forall n :: n in failedDir.value ==> !isZip(n))
  {
  }

  /** The effects of `resendFailedBulletins` once the count is known: two guards, then the service. */
  function ResendEffects(count: int, networkAvailable: bool, serverIP: string, serverPublicKey: string)
    : seq<Effect>
  {
    if count < 1 then [Toast(ResendingNoBulletins)]
    else if !networkAvailable then [Toast(ResendingNoNetwork)]
    else [Toast(Resending), StartResendService(serverIP, serverPublicKey)]
  }

  predicate StartsResend(effects: seq<Effect>) {
    exists i :: 0 <= i < |effects| && effects[i].StartResendService?
  }

  /**
   * The resend service is started exactly when some zip file is waiting in the
   * app directory or in an existing failed directory and the network is up.
   */
  lemma ResendStartsIffBulletinWaiting(
    appDir: seq<string>, failedDir: Option<seq<string>>, isZip: string -> bool,
    networkAvailable: bool, serverIP: string, serverPublicKey: string)
    ensures StartsResend(ResendEffects(UnsentCount(appDir, failedDir, isZip), networkAvailable, serverIP, serverPublicKey))
      <==> networkAvailable &&
           ((exists n :: n in appDir && isZip(n)) ||
            (failedDir.Some? && exists n :: n in failedDir.value && isZip(n)))
  {
    UnsentCountZeroIffNoZip(appDir, failedDir, isZip);
    var effects := ResendEffects(UnsentCount(appDir, failedDir, isZip), networkAvailable, serverIP, serverPublicKey);
    if UnsentCount(appDir, failedDir, isZip) >= 1 && networkAvailable {
      assert effects[1].StartResendService?;
    }
  }

  // ---------------------------------------------------------------------------
  // The activity

  datatype ServerSetting = KeyServerIP | KeyServerPublicKey

  class MainMenuActivity {
    const base: BaseActivity
    var serverPublicKey: string
    var serverIP: string

    constructor (base: BaseActivity)
      ensures this.base == base && serverPublicKey == "" && serverIP == ""
    {
      this.base := base;
      serverPublicKey := "";
      serverIP := "";
    }

    /** `updateSettings`: the server's address and key from its settings, "" where none is stored. */
    method UpdateSettings(serverSettings: map<ServerSetting, string>)
      modifies this
      ensures serverPublicKey == if KeyServerPublicKey in serverSettings then serverSettings[KeyServerPublicKey] else ""
      ensures serverIP == if KeyServerIP in serverSettings then serverSettings[KeyServerIP] else ""
    {
      serverPublicKey := if KeyServerPublicKey in serverSettings then serverSettings[KeyServerPublicKey] else "";
      serverIP := if KeyServerIP in serverSettings then serverSettings[KeyServerIP] else "";
    }

    /** `onResume`: the base activity's reset of the inactivity timer, then the settings. */
    method OnResume(serverSettings: map<ServerSetting, string>)
      modifies this, base.inactivityHandler
      ensures base.State() == Step(old(base.State()), base.inactivityTimeout, Resume)
      ensures serverPublicKey == if KeyServerPublicKey in serverSettings then serverSettings[KeyServerPublicKey] else ""
      ensures serverIP == if KeyServerIP in serverSettings then serverSettings[KeyServerIP] else ""
    {
      base.OnResume();
      UpdateSettings(serverSettings);
    }

    /**
     * `pingServer`: without a network, only a toast; otherwise the progress
     * dialog, then the ping task unless the URL cannot be built
     * (`urlWellFormed` false: the MalformedURLException is ignored and the
     * dialog stays open).
     */
    method PingServer(networkAvailable: bool, urlWellFormed: bool) returns (effects: seq<Effect>)
      ensures !networkAvailable ==> effects == [Toast(NoNetworkConnection)]
      ensures networkAvailable ==> |effects| > 0 && effects[0] == ShowProgressDialog(ProgressConnectingToServer)
      ensures (exists i :: 0 <= i < |effects| && effects[i].StartPingTask?) <==> networkAvailable && urlWellFormed
      ensures forall i :: 0 <= i < |effects| && effects[i].StartPingTask? ==> effects[i].url == PingUrl(serverIP)
    {
      if !networkAvailable {
        effects := [Toast(NoNetworkConnection)];
        return;
      }
      effects := [ShowProgressDialog(ProgressConnectingToServer)];
      if urlWellFormed {
        effects := effects + [StartPingTask(PingUrl(serverIP))];
        assert effects[1].StartPingTask?;
      }
    }

    /**
     * `getNumberOfUnsentBulletins`, fresh from the two directory listings
     * (`failedDir` is `None` when the failed directory does not exist).
     */
    method GetNumberOfUnsentBulletins(appDir: seq<string>, failedDir: Option<seq<string>>, isZip: string -> bool)
      returns (pendingBulletins: int)
      ensures pendingBulletins == UnsentCount(appDir, failedDir, isZip)
      ensures failedDir.None? ==> pendingBulletins == |ListAccepted(appDir, isZip)|
      ensures pendingBulletins >= 1 <==>
        (exists n :: n in appDir && isZip(n)) || (failedDir.Some? && exists n :: n in failedDir.value && isZip(n))
    {
      var sendingBulletinNames := ListAccepted(appDir, isZip);
      pendingBulletins := |sendingBulletinNames|;
      if failedDir.Some? {
        var failedBulletins := ListAccepted(failedDir.value, isZip);
        pendingBulletins := pendingBulletins + |failedBulletins|;
      }
      UnsentCountZeroIffNoZip(appDir, failedDir, isZip);
    }

    /**
     * `resendFailedBulletins`: nothing to send stops first, whatever the
     * network; then no network stops; otherwise the resend service is started
     * with the server's address and key.
     */
    method ResendFailedBulletins(
      appDir: seq<string>, failedDir: Option<seq<string>>, isZip: string -> bool, networkAvailable: bool)
      returns (effects: seq<Effect>)
      ensures effects == ResendEffects(UnsentCount(appDir, failedDir, isZip), networkAvailable, serverIP, serverPublicKey)
      ensures UnsentCount(appDir, failedDir, isZip) < 1 ==> effects == [Toast(ResendingNoBulletins)]
      ensures UnsentCount(appDir, failedDir, isZip) >= 1 && !networkAvailable ==> effects == [Toast(ResendingNoNetwork)]
      ensures StartsResend(effects) <==> UnsentCount(appDir, failedDir, isZip) >= 1 && networkAvailable
      ensures StartsResend(effects) ==> effects[|effects| - 1] == StartResendService(serverIP, serverPublicKey)
    {
      var count := GetNumberOfUnsentBulletins(appDir, failedDir, isZip);
      if count < 1 {
        effects := [Toast(ResendingNoBulletins)];
        return;
      }
      if !networkAvailable {
        effects := [Toast(ResendingNoNetwork)];
        return;
      }
      effects := [Toast(Resending), StartResendService(serverIP, serverPublicKey)];
      assert effects[1].StartResendService?;
    }

    /** `quit`: refused with a message while bulletins are being sent; otherwise log out and finish. */
    method Quit() returns (effects: seq<Effect>)
      ensures base.parentApp.ignoreInactivity ==>
        effects == [ShowMessage(LogoutWhileSendingMessage, LogoutWhileSendingTitle)]
      ensures !base.parentApp.ignoreInactivity ==> effects == [ClearKeyPair, Finish]
      ensures ClearKeyPair in effects <==> !base.parentApp.ignoreInactivity
    {
      if base.parentApp.ignoreInactivity {
        effects := [ShowMessage(LogoutWhileSendingMessage, LogoutWhileSendingTitle)];
      } else {
        effects := [ClearKeyPair, Finish];
      }
    }

    /** `deleteUserAccount`: refused with a message while bulletins are being sent; otherwise ask to confirm. */
    method DeleteUserAccount() returns (effects: seq<Effect>)
      ensures base.parentApp.ignoreInactivity ==>
        effects == [ShowMessage(LogoutWhileSendingMessage, ResetWhileSendingTitle)]
      ensures ShowConfirmationDialog in effects <==> !base.parentApp.ignoreInactivity
      ensures !base.parentApp.ignoreInactivity ==> effects == [ShowConfirmationDialog]
    {
      if base.parentApp.ignoreInactivity {
        effects := [ShowMessage(LogoutWhileSendingMessage, ResetWhileSendingTitle)];
      } else {
        effects := [ShowConfirmationDialog];
      }
    }
  }
}
