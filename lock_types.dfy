/**
 * Vocabulary shared by the lock controller: configuration constants, keys,
 * the relay level, the menu/flow the controller is in, the messages it puts on
 * the display, the calls it makes to the fingerprint sensor, and the replies the
 * sensor gives. Hardware is never driven directly: every step of the controller
 * returns the list of effects it had, in order.
 */
module LockTypes {

  /** Master PIN the controller starts with. */
  const MASTER_PIN: string := "9999"
  /** Longest PIN a prompt accepts. */
  const MAX_PIN_LENGTH: nat := 16
  /** Number of template slots scanned on the sensor (ids 0..127). */
  const SLOT_COUNT: nat := 128
  /** Fingerprint unlock is allowed from OPEN_HOUR (inclusive) to CLOSE_HOUR (exclusive). */
  const OPEN_HOUR: int := 8
  const CLOSE_HOUR: int := 20

  /** The access time window: 8 <= hour < 20. */
  predicate InWindow(hour: int) {
    OPEN_HOUR <= hour < CLOSE_HOUR
  }

  /** 08:00 opens the window and 20:00 closes it: twelve whole hours of a day allow a finger. */
  lemma WindowIsTwelveHours()
    ensures InWindow(8) && !InWindow(7) && InWindow(19) && !InWindow(20)
    ensures |set h | 0 <= h < 24 && InWindow(h)| == 12
  {
    var hours := set h | 0 <= h < 24 && InWindow(h);
    assert hours == {8, 9, 10, 11, 12, 13, 14, 15, 16, 17, 18, 19};
  }

  predicate IsDigit(key: char) {
    '0' <= key <= '9'
  }

  predicate AllDigits(s: string) {
    forall i :: 0 <= i < |s| ==> IsDigit(s[i])
  }

  /** What a PIN or a PIN prompt's buffer always is: at most 16 digits. */
  predicate PinShaped(s: string) {
    |s| <= MAX_PIN_LENGTH && AllDigits(s)
  }

  /** Level of the relay line; HIGH keeps the door locked. */
  datatype Level = High | Low

  /** The menu or flow whose polling loop is currently running. */
  datatype Mode =
    | Idle             // the main loop
    | MenuPin          // the PIN prompt that guards the menu
    | MainMenu         // "1: Fingerprint / 2: Change PIN"
    | FingerprintMenu  // "1: Add Finger / 2: Remove Finger"
    | RemoveList       // browsing the stored ids
    | RemoveConfirm    // "No: * | Yes: #" for the selected id
    | OldPin           // first prompt of the PIN change
    | NewPin           // second prompt of the PIN change

  /** Modes that can only be reached through the menu PIN prompt. */
  predicate BehindPin(m: Mode) {
    !(m.Idle? || m.MenuPin?)
  }

  /** The identity of what the controller writes on the display. */
  datatype Msg =
    | IdleScreen                 // "* for Menu" / "# for Open <time>"
    | EnterPin                   // "Enter PIN:"
    | PinRow(row: string)        // the masked PIN row
    | MenuAccess
    | WrongPin
    | NoTimeslot                 // "No Timeslot" / "Access: 8AM-8PM"
    | VerifyPrompt               // "Place Finger..."
    | AccessGranted
    | NoMatchFound
    | Timeout
    | MainMenuScreen
    | FingerprintMenuScreen
    | AssigningId
    | NoFreeIds
    | EnrollPrompt               // "Place Finger"
    | ScanFinger
    | ScanFingerAgain
    | ErrorCapturing
    | RemoveFinger
    | ErrorCreating
    | StoreFailed
    | FingerAdded(id: int)
    | EnrollFailed
    | LoadingIds
    | NoFinger
    | RemoveScreen               // "ID:" / "Nav: A/B    -> #"
    | ShowId(id: int)
    | ConfirmDelete(id: int)     // "Delete ID: <id>?" / "No: *  |  Yes: #"
    | DeletingId(id: int)
    | Deleted(id: int)
    | DeleteFailed
    | OldPinPrompt
    | NewPinPrompt
    | PinChanged
    | WrongOldPin

  /** A request to the fingerprint sensor. */
  datatype SensorCall =
    | GetImage                   // one polling run of getImage
    | Convert                    // image2Tz() with no buffer argument
    | ConvertInto(buffer: int)   // image2Tz(buffer)
    | FastSearch
    | LoadModel(id: int)
    | CreateModel
    | StoreModel(id: int)
    | DeleteModel(id: int)

  datatype Effect =
    | Display(msg: Msg)
    | Relay(level: Level)
    | Sensor(call: SensorCall)

  /** How one fingerprint verification attempt ends. */
  datatype ScanOutcome =
    | TimedOut                                 // no image within the polling window
    | Captured(convertOk: bool, matchOk: bool) // image taken; image2Tz and fingerFastSearch results

  /** Results of the sensor calls of one enrollment, in pipeline order. */
  datatype EnrollReplies = EnrollReplies(firstOk: bool, secondOk: bool, modelOk: bool, storeOk: bool)

  /** Every sensor result one step of the controller may consume. */
  datatype SensorReplies = SensorReplies(scan: ScanOutcome, enroll: EnrollReplies, deleteOk: bool)

  /** No effect of fx is a request to the sensor. */
  predicate NoSensorCall(fx: seq<Effect>) {
    forall i :: 0 <= i < |fx| ==> !fx[i].Sensor?
  }

  /** The sensor requests of fx, in order. */
  function Calls(fx: seq<Effect>): seq<SensorCall> {
    if fx == [] then []
    else (if fx[0].Sensor? then [fx[0].call] else []) + Calls(fx[1..])
  }

  lemma {:induction false} CallsAppend(a: seq<Effect>, b: seq<Effect>)
    ensures Calls(a + b) == Calls(a) + Calls(b)
  {
    if a != [] {
      assert (a + b)[0] == a[0];
      assert (a + b)[1..] == a[1..] + b;
      CallsAppend(a[1..], b);
    } else {
      assert a + b == b;
    }
  }

  /** The loadModel requests of a scan over ids 0 .. n-1. */
  function Loads(n: nat): (fx: seq<Effect>)
    ensures |fx| == n
    ensures forall i :: 0 <= i < n ==> fx[i] == Sensor(LoadModel(i))
    ensures Relay(Low) !in fx && Relay(High) !in fx && Sensor(GetImage) !in fx
  {
    seq(n, i => Sensor(LoadModel(i)))
  }

  lemma LoadsGrow(n: nat)
    ensures Loads(n + 1) == Loads(n) + [Sensor(LoadModel(n))]
  {
  }
}
