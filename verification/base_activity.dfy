/**
 * BaseActivity: the auto-logout (inactivity) timer every screen runs, the
 * timeout read from the settings, and the location and check of the key file
 * saved from the desktop application.
 */
module Activity {
  import opened Wrappers
  import opened DecimalText
  import opened Files

  const MINUTE_MILLIS: int := 60000

  /** The timeout setting used when none is stored, in minutes. */
  const DEFAULT_TIMEOUT_SETTING: string := "7"

  /** Bounds of a Java `long`. */
  const LONG_MIN: int := -0x8000_0000_0000_0000
  const LONG_MAX: int := 0x7FFF_FFFF_FFFF_FFFF

  const PREFS_DIR: string := "shared_prefs"
  const PREFS_DESKTOP_KEY: string := "desktopHQ"

  // ---------------------------------------------------------------------------
  // Timeout

  /**
   * The timeout setting in minutes: the stored text, or "7" when nothing is
   * stored, read with `Integer.valueOf`; `None` is its NumberFormatException.
   */
  function TimeoutSetting(stored: Option<string>): (minutes: Option<int>)
    ensures stored.None? ==> minutes == Some(7)
    ensures minutes.Some? ==> INT_MIN <= minutes.value <= INT_MAX
  {
    assert AllDigits(DEFAULT_TIMEOUT_SETTING);
    assert DigitsValue(DEFAULT_TIMEOUT_SETTING) == 7 by {
      assert DEFAULT_TIMEOUT_SETTING[..0] == "";
    }
    ParseInt(stored.GetOr(DEFAULT_TIMEOUT_SETTING))
  }

  /** The timeout in milliseconds for a setting in minutes (`int` times `long`). */
  function InactivityTimeout(minutes: int): (millis: int)
    ensures millis % MINUTE_MILLIS == 0 && millis / MINUTE_MILLIS == minutes
    ensures minutes > 0 ==> millis > 0
  {
    minutes * MINUTE_MILLIS
  }

  /** The default setting gives seven minutes: 420000 ms. */
  lemma DefaultTimeout()
    ensures TimeoutSetting(None) == Some(7)
    ensures InactivityTimeout(7) == 420000
  {
  }

  /** Any `int` setting times MINUTE_MILLIS fits in a `long`: the multiplication never wraps. */
  lemma TimeoutFitsInLong(minutes: int)
    requires INT_MIN <= minutes <= INT_MAX
    ensures LONG_MIN <= InactivityTimeout(minutes) <= LONG_MAX
  {
  }

  /** A setting written back as decimal text is read as the same number of minutes. */
  lemma StoredSettingRoundTrip(minutes: int)
    requires INT_MIN <= minutes <= INT_MAX
    ensures TimeoutSetting(Some(ToDecimal(minutes))) == Some(minutes)
  {
    ParseIntOfToDecimal(minutes);
  }

  // ---------------------------------------------------------------------------
  // The inactivity timer as a state: the delays of the logout callbacks posted
  // to the handler and not yet run or removed, and the application's
  // "ignore inactivity" flag, set while bulletins are being sent.

  datatype TimerState = TimerState(pending: seq<int>, ignoreInactivity: bool)

  /** The events that drive the timer: the activity's three hooks and the flag being set or cleared. */
  datatype TimerEvent = UserInteraction | Resume | Stop | SetIgnoreInactivity(ignore: bool)

  /** `resetInactivityTimer`: remove the callback, then post it again unless inactivity is ignored. */
  function AfterReset(s: TimerState, timeout: int): TimerState {
    TimerState(if s.ignoreInactivity then [] else [timeout], s.ignoreInactivity)
  }

  /** `stopInactivityTimer`: remove the callback. */
  function AfterStop(s: TimerState): TimerState {
    TimerState([], s.ignoreInactivity)
  }

  function Step(s: TimerState, timeout: int, e: TimerEvent): TimerState {
    match e
    case UserInteraction => AfterReset(s, timeout)
    case Resume => AfterReset(s, timeout)
    case Stop => AfterStop(s)
    case SetIgnoreInactivity(ignore) => s.(ignoreInactivity := ignore)
  }

  function Run(s: TimerState, timeout: int, events: seq<TimerEvent>): TimerState
    decreases |events|
  {
    if events == [] then s else Run(Step(s, timeout, events[0]), timeout, events[1..])
  }

  /** Whatever the activity goes through, at most one logout callback is ever pending. */
  lemma {:induction false} AtMostOneCallbackPending(s: TimerState, timeout: int, events: seq<TimerEvent>)
    requires |s.pending| <= 1
    ensures |Run(s, timeout, events).pending| <= 1
    decreases |events|
  {
    if events != [] {
      AtMostOneCallbackPending(Step(s, timeout, events[0]), timeout, events[1..]);
    }
  }

  /** Every pending callback waits exactly the activity's timeout. */
  lemma {:induction false} PendingDelayIsTimeout(s: TimerState, timeout: int, events: seq<TimerEvent>)
    requires forall i :: 0 <= i < |s.pending| ==> s.pending[i] == timeout
    ensures forall i :: 0 <= i < |Run(s, timeout, events).pending| ==> Run(s, timeout, events).pending[i] == timeout
    decreases |events|
  {
    if events != [] {
      PendingDelayIsTimeout(Step(s, timeout, events[0]), timeout, events[1..]);
    }
  }

  /**
   * Once inactivity is ignored and no callback is pending, none is posted
   * again until the flag is cleared, whatever the hooks do.
   */
  lemma {:induction false} NoCallbackWhileIgnoring(s: TimerState, timeout: int, events: seq<TimerEvent>)
    requires s.ignoreInactivity && s.pending == []
    requires forall i :: 0 <= i < |events| ==> events[i] != SetIgnoreInactivity(false)
    ensures Run(s, timeout, events).ignoreInactivity && Run(s, timeout, events).pending == []
    decreases |events|
  {
    if events != [] {
      assert events[0] != SetIgnoreInactivity(false);
      NoCallbackWhileIgnoring(Step(s, timeout, events[0]), timeout, events[1..]);
    }
  }

  /**
   * Setting the flag does not remove a callback that is already pending: the
   * flag takes effect only at the next reset or stop.
   */
  lemma FlagAloneKeepsPendingCallback(timeout: int)
    ensures Step(TimerState([timeout], false), timeout, SetIgnoreInactivity(true)).pending == [timeout]
  {
  }

  // ---------------------------------------------------------------------------
  // The objects

  /**
   * The application, seen only through the "ignore inactivity" flag that
   * `MartusApplication.isIgnoreInactivity()` reads. The code that sets the
   * flag is not part of this model; `TimerEvent.SetIgnoreInactivity` stands
   * for it.
   */
  class MartusApplication {
    var ignoreInactivity: bool

    constructor ()
      ensures !ignoreInactivity
    {
      ignoreInactivity := false;
    }
  }

  /**
   * The activity's handler, seen only through the one callback it is given:
   * the delays of the postings of that callback still pending, oldest first.
   */
  class InactivityHandler {
    var pending: seq<int>

    constructor ()
      ensures pending == []
    {
      pending := [];
    }

    /** `removeCallbacks`: drops every pending posting of the callback. */
    method RemoveCallbacks()
      modifies this
      ensures pending == []
    {
      pending := [];
    }

    /** `postDelayed`: adds one more posting. */
    method PostDelayed(delay: int)
      modifies this
      ensures pending == old(pending) + [delay]
    {
      pending := pending + [delay];
    }
  }

  class BaseActivity {
    const parentApp: MartusApplication
    const inactivityHandler: InactivityHandler
    var inactivityTimeout: int

    ghost function State(): TimerState
      reads inactivityHandler, parentApp
    {
      TimerState(inactivityHandler.pending, parentApp.ignoreInactivity)
    }

    /**
     * `onCreate`: a fresh handler with nothing pending, and the timeout from
     * the stored setting (Integer.valueOf throws out of onCreate for text that
     * is not a number, so such a setting creates no activity).
     */
    constructor OnCreate(app: MartusApplication, storedTimeout: Option<string>)
      requires TimeoutSetting(storedTimeout).Some?
      ensures parentApp == app && fresh(inactivityHandler)
      ensures inactivityHandler.pending == []
      ensures inactivityTimeout == InactivityTimeout(TimeoutSetting(storedTimeout).value)
      ensures LONG_MIN <= inactivityTimeout <= LONG_MAX
    {
      parentApp := app;
      inactivityHandler := new InactivityHandler();
      var timeoutSetting := TimeoutSetting(storedTimeout).value;
      TimeoutFitsInLong(timeoutSetting);
      inactivityTimeout := timeoutSetting * MINUTE_MILLIS;
    }

    method ResetInactivityTimer()
      modifies inactivityHandler
      ensures State() == AfterReset(old(State()), inactivityTimeout)
      ensures !parentApp.ignoreInactivity ==> inactivityHandler.pending == [inactivityTimeout]
      ensures parentApp.ignoreInactivity ==> inactivityHandler.pending == []
    {
      inactivityHandler.RemoveCallbacks();
      if !parentApp.ignoreInactivity {
        inactivityHandler.PostDelayed(inactivityTimeout);
      }
    }

    method StopInactivityTimer()
      modifies inactivityHandler
      ensures State() == AfterStop(old(State()))
      ensures inactivityHandler.pending == []
      ensures parentApp.ignoreInactivity == old(parentApp.ignoreInactivity)
    {
      inactivityHandler.RemoveCallbacks();
    }

    method OnUserInteraction()
      modifies inactivityHandler
      ensures State() == Step(old(State()), inactivityTimeout, UserInteraction)
    {
      ResetInactivityTimer();
    }

    method OnResume()
      modifies inactivityHandler
      ensures State() == Step(old(State()), inactivityTimeout, Resume)
    {
      ResetInactivityTimer();
    }

    method OnStop()
      modifies inactivityHandler
      ensures State() == Step(old(State()), inactivityTimeout, Stop)
    {
      StopInactivityTimer();
    }
  }

  // ---------------------------------------------------------------------------
  // The desktop key file

  /** `getDesktopKeyFile`: "desktopHQ.xml" in the "shared_prefs" directory beside the cache directory. */
  function DesktopKeyFile(cacheDir: Path): (f: Path)
    ensures GetName(f) == PREFS_DESKTOP_KEY + ".xml"
    ensures GetParent(f).Some? && GetName(GetParent(f).value) == PREFS_DIR
    ensures GetParent(GetParent(f).value) == GetParent(cacheDir)
    ensures cacheDir.Valid() ==> f.Valid()
  {
    var prefsDir := Child(GetParent(cacheDir), PREFS_DIR);
    ChildParts(GetParent(cacheDir), PREFS_DIR);
    ChildParts(Some(prefsDir), PREFS_DESKTOP_KEY + ".xml");
    Child(Some(prefsDir), PREFS_DESKTOP_KEY + ".xml")
  }

  /** The detached signature of a file: same directory, name followed by ".sig". */
  function SignatureFile(file: Path): (sig: Path)
    requires file.Valid()
    ensures GetParent(sig) == GetParent(file)
    ensures GetName(sig) == GetName(file) + ".sig"
  {
    var name := GetName(file) + ".sig";
    assert '/' !in name by {
      if |file.names| > 0 {
        assert ValidName(file.names[|file.names| - 1]);
      }
    }
    ChildParts(GetParent(file), name);
    Child(GetParent(file), name)
  }

  /** What `verifySavedDesktopKeyFile` does. */
  datatype KeyFileCheck =
    | NoKeyFile
    | Verified(file: Path, signature: Path)
    | FileVerificationException(file: Path, signature: Path)

  /**
   * `verifySavedDesktopKeyFile`: when the key file exists, its signature file
   * is checked against it with the account's public key (`signatureValid`),
   * and a failed check throws; when it does not exist nothing is checked and
   * nothing is thrown.
   */
  function VerifySavedDesktopKeyFile(cacheDir: Path, fileExists: Path -> bool, signatureValid: (Path, Path) -> bool)
    : (r: KeyFileCheck)
    requires cacheDir.Valid()
    ensures r.NoKeyFile? <==> !fileExists(DesktopKeyFile(cacheDir))
    ensures !r.NoKeyFile? ==> r.file == DesktopKeyFile(cacheDir) && fileExists(r.file)
    ensures !r.NoKeyFile? ==>
      GetParent(r.signature) == GetParent(r.file) && GetName(r.signature) == PREFS_DESKTOP_KEY + ".xml.sig"
    ensures r.Verified? <==> fileExists(DesktopKeyFile(cacheDir)) && signatureValid(r.file, r.signature)
  {
    var desktopKeyFile := DesktopKeyFile(cacheDir);
    if fileExists(desktopKeyFile) then
      var sigFile := SignatureFile(desktopKeyFile);
      if signatureValid(desktopKeyFile, sigFile) then Verified(desktopKeyFile, sigFile)
      else FileVerificationException(desktopKeyFile, sigFile)
    else NoKeyFile
  }
}
