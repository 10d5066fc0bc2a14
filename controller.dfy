/**
 * The lock controller as a state machine. The source runs each menu as a
 * polling loop that calls the next menu's function; every such call is the
 * last thing its caller does, so each call is a change of `mode` here, and
 * each pass of a polling loop that reads one key is one call of a Step method.
 * The fields are the source's globals (currentPin, inMenu), the relay line,
 * the mode, the locals of the running flow, and the sensor's template table.
 */
module Controller {
  import opened LockTypes
  import opened PinEntry
  import opened Cursor
  import opened SlotList
  import opened SensorFlows

  /** The idle screen drawn at the top of a pass of the main loop, unless inMenu is set. */
  function IdleBanner(inMenu: bool): (fx: seq<Effect>)
    ensures NoSensorCall(fx) && Relay(Low) !in fx
    ensures |fx| == if inMenu then 0 else 1
    ensures forall e :: e in fx ==> e == Display(IdleScreen)
  {
    if inMenu then [] else [Display(IdleScreen)]
  }

  /** What removeFingerprint shows and asks of the sensor before its first key, given the ids found. */
  function RemovalOpening(ids: seq<int>): (fx: seq<Effect>)
    ensures Relay(Low) !in fx
    ensures Sensor(GetImage) !in fx
  {
    [Display(LoadingIds)] + Loads(SLOT_COUNT) +
    (if ids == [] then [Display(NoFinger), Display(FingerprintMenuScreen)]
     else [Display(RemoveScreen), Display(ShowId(ids[0]))])
  }

  /** What addFingerprint shows and asks of the sensor, given the template table and the enrollment replies. */
  function AddEffects(table: seq<bool>, r: EnrollReplies): (fx: seq<Effect>)
    ensures FirstFree(table) == -1 ==> Sensor(GetImage) !in fx
    ensures Relay(Low) !in fx
  {
    var id := FirstFree(table);
    if id == -1 then
      [Display(AssigningId)] + Loads(SLOT_COUNT) + [Display(NoFreeIds), Display(FingerprintMenuScreen)]
    else
      [Display(AssigningId)] + Loads(id + 1) + [Display(EnrollPrompt)] + EnrollEffects(id, r)
      + [Display(if EnrollSucceeds(r) then FingerAdded(id) else EnrollFailed), Display(FingerprintMenuScreen)]
  }

  /** The template table after addFingerprint. */
  function AfterAdd(table: seq<bool>, r: EnrollReplies): (after: seq<bool>)
    ensures |after| == |table|
    // only the lowest free slot can change, and it is filled exactly when enrollment succeeds
    ensures forall j :: 0 <= j < |table| && j != FirstFree(table) ==> after[j] == table[j]
    ensures FirstFree(table) != -1 ==> after[FirstFree(table)] == EnrollSucceeds(r)
  {
    var id := FirstFree(table);
    if id != -1 && EnrollSucceeds(r) then table[id := true] else table
  }

  predicate InRemoval(m: Mode) {
    m.RemoveList? || m.RemoveConfirm?
  }

  class LockController {
    /** The PIN that opens the menu (MASTER_PIN until changed). */
    var currentPin: string
    /** Menu mode flag: while set, the main loop does not draw the idle screen. */
    var inMenu: bool
    /** Level of the relay line. */
    var relay: Level
    /** The polling loop currently running. */
    var mode: Mode
    /** The digits typed at the running PIN prompt (enteredPin, oldPin or newPin). */
    var pinBuffer: string
    /** The removal flow's list of occupied ids and its cursor. */
    const occupiedIDs: array<int>
    var occupiedCount: int
    var currentIndex: int
    /** The sensor's template memory: slots[id] iff a template is stored at id. */
    const slots: array<bool>

    ghost predicate Valid()
      reads this, slots, occupiedIDs
    {
      && slots.Length == SLOT_COUNT
      && occupiedIDs.Length == SLOT_COUNT
      && PinShaped(currentPin)
      && PinShaped(pinBuffer)
      && relay == High
      && 0 <= occupiedCount <= SLOT_COUNT
      && (InRemoval(mode) ==>
            && 0 <= currentIndex < occupiedCount
            && occupiedIDs[..occupiedCount] == Occupied(slots[..]))
    }

    /** setup(): relay HIGH, master PIN, not in the menu; `stored` is the sensor's template memory. */
    constructor (stored: seq<bool>)
      requires |stored| == SLOT_COUNT
      ensures Valid() && fresh(slots) && fresh(occupiedIDs)
      ensures slots[..] == stored
      ensures currentPin == MASTER_PIN && !inMenu && relay == High && mode == Idle
    {
      currentPin := MASTER_PIN;
      inMenu := false;
      relay := High;
      mode := Idle;
      pinBuffer := "";
      occupiedIDs := new int[SLOT_COUNT];
      occupiedCount := 0;
      currentIndex := 0;
      slots := new bool[SLOT_COUNT](i requires 0 <= i < SLOT_COUNT => stored[i]);
    }

    /** One key of the running loop, with the sensor's replies for any sensor call it makes. */
    method Step(key: char, hour: int, replies: SensorReplies) returns (fx: seq<Effect>)
      requires Valid()
      modifies this, slots, occupiedIDs
      ensures Valid()
      // currentPin is written only by '#' at the new-PIN prompt
      ensures currentPin == if old(mode).NewPin? && key == '#' then old(pinBuffer) else old(currentPin)
      // the relay is driven LOW only by a matching finger at '#' in the time window
      ensures Relay(Low) in fx <==>
                old(mode).Idle? && key == '#' && InWindow(hour) && replies.scan == Captured(true, true)
      // the menus are entered only through the right PIN
      ensures BehindPin(mode) && !BehindPin(old(mode)) ==>
                old(mode).MenuPin? && key == '#' && old(pinBuffer) == old(currentPin)
      // the new-PIN prompt is reached only by the matching old PIN
      ensures mode.NewPin? && !old(mode).NewPin? ==>
                old(mode).OldPin? && key == '#' && old(pinBuffer) == old(currentPin)
      // '#' outside the window never reaches the sensor
      ensures old(mode).Idle? && key == '#' && !InWindow(hour) ==> NoSensorCall(fx)
      // the template memory changes only by enrollment or a confirmed deletion
      ensures slots[..] != old(slots[..]) ==>
                (old(mode).FingerprintMenu? && key == '1') || (old(mode).RemoveConfirm? && key == '#')
    {
      match mode
      case Idle => fx := StepIdle(key, hour, replies.scan);
      case MenuPin => fx := StepMenuPin(key);
      case MainMenu => fx := StepMainMenu(key);
      case FingerprintMenu => fx := StepFingerprintMenu(key, replies.enroll);
      case RemoveList => fx := StepRemoveList(key);
      case RemoveConfirm => fx := StepRemoveConfirm(key, replies.deleteOk);
      case OldPin => fx := StepOldPin(key);
      case NewPin => fx := StepNewPin(key);
    }

    /** One pass of loop(): '*' opens the PIN prompt, '#' tries the finger within the window. */
    method StepIdle(key: char, hour: int, scan: ScanOutcome) returns (fx: seq<Effect>)
      requires Valid() && mode.Idle?
      modifies this`mode, this`inMenu, this`pinBuffer, this`relay
      ensures Valid()
      ensures key == '*' ==>
                mode == MenuPin && inMenu && pinBuffer == [] &&
                fx == IdleBanner(old(inMenu)) + [Display(EnterPin), Display(EnterPin), Display(PinRow([]))]
      ensures key != '*' ==> mode == Idle && inMenu == old(inMenu)
      ensures key == '#' ==>
                fx == IdleBanner(old(inMenu)) +
                      if InWindow(hour) then VerifyEffects(scan) else [Display(NoTimeslot), Display(IdleScreen)]
      ensures key != '*' && key != '#' ==> fx == IdleBanner(old(inMenu))
      ensures Relay(Low) in fx <==> key == '#' && InWindow(hour) && scan == Captured(true, true)
      ensures !(key == '#' && InWindow(hour)) ==> NoSensorCall(fx)
    {
      fx := IdleBanner(inMenu);
      if key == '*' {
        fx := fx + [Display(EnterPin)];
        var entry := EnterMenu();
        fx := fx + entry;
      } else if key == '#' {
        if InWindow(hour) {
          var verify := StartFingerprint(scan);
          fx := fx + verify;
        } else {
          fx := fx + [Display(NoTimeslot), Display(IdleScreen)];
        }
      }
    }

    /** enterMenu() up to its first key: set inMenu and open an empty PIN prompt. */
    method EnterMenu() returns (fx: seq<Effect>)
      modifies this`mode, this`inMenu, this`pinBuffer
      ensures mode == MenuPin && inMenu && pinBuffer == []
      ensures fx == [Display(EnterPin), Display(PinRow([]))]
    {
      inMenu := true;
      pinBuffer := "";
      mode := MenuPin;
      var row := MaskRow(pinBuffer);
      fx := [Display(EnterPin), Display(PinRow(row))];
    }

    /** startFingerprint(): one verification attempt; a match opens the lock. */
    method StartFingerprint(scan: ScanOutcome) returns (fx: seq<Effect>)
      requires relay == High
      modifies this`relay
      ensures relay == High
      ensures fx == VerifyEffects(scan)
    {
      fx := [Display(VerifyPrompt), Sensor(GetImage)];
      match scan {
        case TimedOut =>
          fx := fx + [Display(Timeout)];
        case Captured(convertOk, matchOk) =>
          fx := fx + [Sensor(Convert)];
          if convertOk {
            fx := fx + [Sensor(FastSearch)];
          }
          if convertOk && matchOk {
            fx := fx + [Display(AccessGranted)];
            var pulse := OpenLock();
            fx := fx + pulse;
          } else {
            fx := fx + [Display(NoMatchFound)];
          }
      }
    }

    /** openLock(): relay LOW for the hold time, then HIGH again. */
    method OpenLock() returns (fx: seq<Effect>)
      modifies this`relay
      ensures relay == High
      ensures fx == UNLOCK
    {
      relay := Low;
      fx := [Relay(relay), Display(AccessGranted)];
      relay := High;
      fx := fx + [Relay(relay), Display(IdleScreen)];
    }

    /** One key at a PIN prompt that neither confirms nor cancels: edit, then redraw the masked row. */
    method EditBuffer(key: char) returns (fx: seq<Effect>)
      requires PinShaped(pinBuffer)
      modifies this`pinBuffer
      ensures pinBuffer == EditPin(old(pinBuffer), key) && PinShaped(pinBuffer)
      ensures fx == [Display(PinRow(Masked(pinBuffer)))]
    {
      pinBuffer := EditPin(pinBuffer, key);
      var row := MaskRow(pinBuffer);
      fx := [Display(PinRow(row))];
    }

    /** One key at the menu PIN prompt (enterMenu). currentPin is only read. */
    method StepMenuPin(key: char) returns (fx: seq<Effect>)
      requires Valid() && mode.MenuPin?
      modifies this`mode, this`inMenu, this`pinBuffer
      ensures Valid()
      ensures key == '#' && old(pinBuffer) == currentPin ==>
                mode == MainMenu && inMenu == old(inMenu) && fx == [Display(MenuAccess), Display(MainMenuScreen)]
      ensures key == '#' && old(pinBuffer) != currentPin ==>
                mode == Idle && !inMenu && fx == [Display(WrongPin)]
      ensures key == '*' ==> mode == Idle && !inMenu && fx == []
      ensures key != '#' && key != '*' ==>
                mode == MenuPin && inMenu == old(inMenu) &&
                pinBuffer == EditPin(old(pinBuffer), key) && fx == [Display(PinRow(Masked(pinBuffer)))]
    {
      if key == '#' {
        if pinBuffer == currentPin {
          fx := [Display(MenuAccess), Display(MainMenuScreen)];
          mode := MainMenu;
        } else {
          fx := [Display(WrongPin)];
          inMenu := false;
          mode := Idle;
        }
      } else if key == '*' {
        fx := [];
        inMenu := false;
        mode := Idle;
      } else {
        fx := EditBuffer(key);
      }
    }

    /** One key in showMenu: 1 fingerprint menu, 2 PIN change, * leave. */
    method StepMainMenu(key: char) returns (fx: seq<Effect>)
      requires Valid() && mode.MainMenu?
      modifies this`mode, this`inMenu, this`pinBuffer
      ensures Valid()
      ensures key == '1' ==> mode == FingerprintMenu && inMenu == old(inMenu) && fx == [Display(FingerprintMenuScreen)]
      ensures key == '2' ==>
                mode == OldPin && inMenu == old(inMenu) && pinBuffer == [] &&
                fx == [Display(OldPinPrompt), Display(PinRow([]))]
      ensures key == '*' ==> mode == Idle && !inMenu && fx == []
      ensures key != '1' && key != '2' && key != '*' ==>
                mode == MainMenu && inMenu == old(inMenu) && pinBuffer == old(pinBuffer) && fx == []
    {
      fx := [];
      if key == '1' {
        fx := [Display(FingerprintMenuScreen)];
        mode := FingerprintMenu;
      } else if key == '2' {
        pinBuffer := "";
        mode := OldPin;
        var row := MaskRow(pinBuffer);
        fx := [Display(OldPinPrompt), Display(PinRow(row))];
      } else if key == '*' {
        inMenu := false;
        mode := Idle;
      }
    }

    /** One key in fingerprintMenu: 1 enroll, 2 remove, * leave. */
    method StepFingerprintMenu(key: char, enroll: EnrollReplies) returns (fx: seq<Effect>)
      requires Valid() && mode.FingerprintMenu?
      modifies this`mode, this`inMenu, this`occupiedCount, this`currentIndex, slots, occupiedIDs
      ensures Valid()
      ensures key == '1' ==>
                && mode == FingerprintMenu && inMenu == old(inMenu)
                && slots[..] == AfterAdd(old(slots[..]), enroll)
                && fx == AddEffects(old(slots[..]), enroll)
      ensures key == '2' ==>
                && slots[..] == old(slots[..]) && inMenu == old(inMenu)
                && fx == RemovalOpening(Occupied(slots[..]))
                && (mode == FingerprintMenu || mode == RemoveList)
                && (mode == RemoveList <==> Occupied(slots[..]) != [])
                && (mode == RemoveList ==> currentIndex == 0)
      ensures key == '*' ==> mode == Idle && !inMenu && slots[..] == old(slots[..]) && fx == []
      ensures key != '1' && key != '2' && key != '*' ==>
                mode == FingerprintMenu && inMenu == old(inMenu) && slots[..] == old(slots[..]) && fx == []
      ensures Relay(Low) !in fx
    {
      fx := [];
      if key == '1' {
        fx := AddFingerprint(enroll);
      } else if key == '2' {
        fx := RemoveFingerprint();
      } else if key == '*' {
        inMenu := false;
        mode := Idle;
      }
    }

    /** The loadModel scan of addFingerprint: the lowest id whose load fails, or -1. */
    method FindFreeSlot() returns (id: int, fx: seq<Effect>)
      requires slots.Length == SLOT_COUNT
      ensures id == FirstFree(slots[..])
      ensures fx == Loads(if id == -1 then SLOT_COUNT else id + 1)
    {
      id := -1;
      fx := [];
      var i := 0;
      while i < SLOT_COUNT
        invariant 0 <= i <= SLOT_COUNT
        invariant forall j :: 0 <= j < i ==> slots[j]
        invariant fx == Loads(i)
      {
        LoadsGrow(i);
        fx := fx + [Sensor(LoadModel(i))];
        if !slots[i] {
          id := i;
          assert slots[..][i] == false;
          return;
        }
        i := i + 1;
      }
    }

    /** addFingerprint(): take the lowest free id and enroll a finger into it. */
    method AddFingerprint(enroll: EnrollReplies) returns (fx: seq<Effect>)
      requires Valid() && mode.FingerprintMenu?
      modifies slots
      ensures Valid()
      ensures slots[..] == AfterAdd(old(slots[..]), enroll)
      ensures fx == AddEffects(old(slots[..]), enroll)
    {
      fx := [Display(AssigningId)];
      var fingerID, loads := FindFreeSlot();
      fx := fx + loads;
      if fingerID == -1 {
        fx := fx + [Display(NoFreeIds), Display(FingerprintMenuScreen)];
        return;
      }
      fx := fx + [Display(EnrollPrompt)];
      var ok, enrolled := FingerEnroll(fingerID, enroll);
      fx := fx + enrolled;
      if ok {
        fx := fx + [Display(FingerAdded(fingerID)), Display(FingerprintMenuScreen)];
      } else {
        fx := fx + [Display(EnrollFailed), Display(FingerprintMenuScreen)];
      }
    }

    /** fingerEnroll(id): two samples, model creation, storage at id. */
    method FingerEnroll(id: int, enroll: EnrollReplies) returns (ok: bool, fx: seq<Effect>)
      requires slots.Length == SLOT_COUNT && 0 <= id < SLOT_COUNT
      modifies slots
      ensures ok == EnrollSucceeds(enroll)
      ensures fx == EnrollEffects(id, enroll)
      ensures slots[..] == if ok then old(slots[..])[id := true] else old(slots[..])
    {
      fx := [];
      for i := 0 to 2
        invariant fx == if i == 0 then [] else if i == 1 then SampleEffects(0) + [Display(RemoveFinger)] else BothSamples()
        invariant i >= 1 ==> enroll.firstOk
        invariant i >= 2 ==> enroll.secondOk
      {
        fx := fx + SampleEffects(i);
        var converted := if i == 0 then enroll.firstOk else enroll.secondOk;
        if !converted {
          fx := fx + [Display(ErrorCapturing)];
          return false, fx;
        }
        if i == 0 {
          fx := fx + [Display(RemoveFinger)];
        }
      }
      if !enroll.modelOk {
        fx := fx + [Sensor(CreateModel), Display(ErrorCreating)];
        return false, fx;
      }
      fx := fx + [Sensor(CreateModel), Sensor(StoreModel(id))];
      if !enroll.storeOk {
        fx := fx + [Display(StoreFailed)];
        return false, fx;
      }
      slots[id] := true;
      ok := true;
    }

    /** The loadModel scan of removeFingerprint: the occupied ids, ascending, into occupiedIDs. */
    method CollectOccupied() returns (fx: seq<Effect>)
      requires slots.Length == SLOT_COUNT && occupiedIDs.Length == SLOT_COUNT
      modifies this`occupiedCount, occupiedIDs
      ensures 0 <= occupiedCount <= SLOT_COUNT
      ensures occupiedIDs[..occupiedCount] == Occupied(slots[..])
      ensures fx == Loads(SLOT_COUNT)
    {
      occupiedCount := 0;
      fx := [];
      ghost var table := slots[..];
      ghost var ids: seq<int> := [];
      for id := 0 to SLOT_COUNT
        modifies this`occupiedCount, occupiedIDs
        invariant 0 <= occupiedCount <= id && occupiedCount == |ids|
        invariant occupiedIDs[..occupiedCount] == ids
        invariant ids == Occupied(table[..id])
        invariant fx == Loads(id)
      {
        LoadsGrow(id);
        fx := fx + [Sensor(LoadModel(id))];
        OccupiedGrow(table[..id], table[id]);
        assert table[..id + 1] == table[..id] + [table[id]];
        if slots[id] {
          occupiedIDs[occupiedCount] := id;
          occupiedCount := occupiedCount + 1;
          ids := ids + [id];
        }
      }
      assert table[..SLOT_COUNT] == table;
    }

    /** removeFingerprint() up to its first key: list the stored ids, or report there are none. */
    method RemoveFingerprint() returns (fx: seq<Effect>)
      requires Valid() && mode.FingerprintMenu?
      modifies this`occupiedCount, this`currentIndex, this`mode, occupiedIDs
      ensures Valid()
      ensures occupiedIDs[..occupiedCount] == Occupied(slots[..])
      ensures fx == RemovalOpening(Occupied(slots[..]))
      ensures Occupied(slots[..]) == [] ==> mode == FingerprintMenu
      ensures Occupied(slots[..]) != [] ==> mode == RemoveList && currentIndex == 0
    {
      var loads := CollectOccupied();
      ghost var ids := Occupied(slots[..]);
      assert |ids| == occupiedCount;
      var tail: seq<Effect>;
      if occupiedCount == 0 {
        tail := [Display(NoFinger), Display(FingerprintMenuScreen)];
      } else {
        assert ids[0] == occupiedIDs[0];
        currentIndex := 0;
        mode := RemoveList;
        tail := [Display(RemoveScreen), Display(ShowId(occupiedIDs[currentIndex]))];
      }
      fx := [Display(LoadingIds)] + loads + tail;
      assert PinShaped(currentPin) && PinShaped(pinBuffer);
      assert InRemoval(mode) ==> 0 <= currentIndex < occupiedCount;
    }

    /** One key while browsing the stored ids: A/B move, # asks for confirmation, * back to showMenu. */
    method StepRemoveList(key: char) returns (fx: seq<Effect>)
      requires Valid() && mode.RemoveList?
      modifies this`currentIndex, this`mode
      ensures Valid()
      ensures key == 'A' ==>
                mode == RemoveList && currentIndex == Next(old(currentIndex), occupiedCount) &&
                fx == [Display(ShowId(occupiedIDs[currentIndex]))]
      ensures key == 'B' ==>
                mode == RemoveList && currentIndex == Prev(old(currentIndex), occupiedCount) &&
                fx == [Display(ShowId(occupiedIDs[currentIndex]))]
      ensures key == '#' ==>
                mode == RemoveConfirm && currentIndex == old(currentIndex) &&
                fx == [Display(ConfirmDelete(occupiedIDs[currentIndex]))]
      ensures key == '*' ==> mode == MainMenu && fx == [Display(MainMenuScreen)]
      ensures key != 'A' && key != 'B' && key != '#' && key != '*' ==>
                mode == RemoveList && currentIndex == old(currentIndex) && fx == []
    {
      fx := [];
      if key == 'B' {
        currentIndex := Prev(currentIndex, occupiedCount);
        fx := [Display(ShowId(occupiedIDs[currentIndex]))];
      } else if key == 'A' {
        currentIndex := Next(currentIndex, occupiedCount);
        fx := [Display(ShowId(occupiedIDs[currentIndex]))];
      } else if key == '#' {
        fx := [Display(ConfirmDelete(occupiedIDs[currentIndex]))];
        mode := RemoveConfirm;
      } else if key == '*' {
        fx := [Display(MainMenuScreen)];
        mode := MainMenu;
      }
    }

    /** One key at "No: * | Yes: #": # deletes the selected id, * goes back to the list. */
    method StepRemoveConfirm(key: char, deleteOk: bool) returns (fx: seq<Effect>)
      requires Valid() && mode.RemoveConfirm?
      modifies this`mode, this`occupiedCount, slots, occupiedIDs
      ensures Valid()
      ensures key == '#' && deleteOk ==>
                var id := old(occupiedIDs[currentIndex]);
                && mode == FingerprintMenu
                && slots[..] == old(slots[..])[id := false]
                && occupiedCount == old(occupiedCount) - 1
                && occupiedIDs[..occupiedCount] == RemoveAt(old(occupiedIDs[..occupiedCount]), currentIndex)
                && occupiedIDs[..occupiedCount] == Occupied(slots[..])
                && fx == [Display(DeletingId(id)), Sensor(DeleteModel(id)), Display(Deleted(id)), Display(FingerprintMenuScreen)]
      ensures currentIndex == old(currentIndex)
      ensures key == '#' && !deleteOk ==>
                var id := occupiedIDs[currentIndex];
                && mode == RemoveList
                && slots[..] == old(slots[..])
                && occupiedCount == old(occupiedCount)
                && occupiedIDs[..occupiedCount] == old(occupiedIDs[..occupiedCount])
                && fx == [Display(DeletingId(id)), Sensor(DeleteModel(id)), Display(DeleteFailed), Display(ShowId(id))]
      ensures key == '*' ==>
                && mode == RemoveList
                && slots[..] == old(slots[..])
                && occupiedCount == old(occupiedCount)
                && occupiedIDs[..occupiedCount] == old(occupiedIDs[..occupiedCount])
                && fx == [Display(RemoveScreen), Display(ShowId(occupiedIDs[currentIndex]))]
      ensures key != '#' && key != '*' ==>
                && mode == RemoveConfirm
                && slots[..] == old(slots[..])
                && occupiedCount == old(occupiedCount)
                && occupiedIDs[..occupiedCount] == old(occupiedIDs[..occupiedCount])
                && fx == []
    {
      fx := [];
      if key == '#' {
        var idToDelete := occupiedIDs[currentIndex];
        fx := [Display(DeletingId(idToDelete)), Sensor(DeleteModel(idToDelete))];
        if deleteOk {
          ghost var table := slots[..];
          DeleteMatchesRescan(table, currentIndex);
          slots[idToDelete] := false;
          assert slots[..] == table[idToDelete := false];
          fx := fx + [Display(Deleted(idToDelete))];
          ShiftOut();
          mode := FingerprintMenu;
          fx := fx + [Display(FingerprintMenuScreen)];
        } else {
          fx := fx + [Display(DeleteFailed), Display(ShowId(idToDelete))];
          mode := RemoveList;
        }
      } else if key == '*' {
        fx := [Display(RemoveScreen), Display(ShowId(occupiedIDs[currentIndex]))];
        mode := RemoveList;
      }
    }

    /** The left shift that drops the entry at currentIndex from occupiedIDs. */
    method ShiftOut()
      requires occupiedIDs.Length == SLOT_COUNT && 0 <= currentIndex < occupiedCount <= SLOT_COUNT
      modifies this`occupiedCount, occupiedIDs
      ensures occupiedCount == old(occupiedCount) - 1
      ensures occupiedIDs[..occupiedCount] == RemoveAt(old(occupiedIDs[..occupiedCount]), currentIndex)
    {
      var i := currentIndex;
      while i < occupiedCount - 1
        modifies occupiedIDs
        invariant currentIndex <= i <= occupiedCount - 1
        invariant forall k :: 0 <= k < currentIndex ==> occupiedIDs[k] == old(occupiedIDs[k])
        invariant forall k :: currentIndex <= k < i ==> occupiedIDs[k] == old(occupiedIDs[k + 1])
        invariant forall k :: i <= k < SLOT_COUNT ==> occupiedIDs[k] == old(occupiedIDs[k])
      {
        occupiedIDs[i] := occupiedIDs[i + 1];
        i := i + 1;
      }
      occupiedCount := occupiedCount - 1;
    }

    /** One key at the old-PIN prompt of changePin. Leaving it never clears inMenu. */
    method StepOldPin(key: char) returns (fx: seq<Effect>)
      requires Valid() && mode.OldPin?
      modifies this`mode, this`pinBuffer
      ensures Valid()
      ensures key == '#' && old(pinBuffer) == currentPin ==>
                mode == NewPin && pinBuffer == [] && fx == [Display(NewPinPrompt), Display(PinRow([]))]
      ensures key == '#' && old(pinBuffer) != currentPin ==> mode == Idle && fx == [Display(WrongOldPin)]
      ensures key == '*' ==> mode == Idle && fx == []
      ensures key != '#' && key != '*' ==>
                mode == OldPin && pinBuffer == EditPin(old(pinBuffer), key) && fx == [Display(PinRow(Masked(pinBuffer)))]
    {
      if key == '#' {
        if pinBuffer == currentPin {
          pinBuffer := "";
          mode := NewPin;
          var row := MaskRow(pinBuffer);
          fx := [Display(NewPinPrompt), Display(PinRow(row))];
        } else {
          fx := [Display(WrongOldPin)];
          mode := Idle;
        }
      } else if key == '*' {
        fx := [];
        mode := Idle;
      } else {
        fx := EditBuffer(key);
      }
    }

    /** One key at the new-PIN prompt of changePin: '#' is the only write of currentPin. */
    method StepNewPin(key: char) returns (fx: seq<Effect>)
      requires Valid() && mode.NewPin?
      modifies this`mode, this`pinBuffer, this`currentPin, this`inMenu
      ensures Valid()
      ensures key == '#' ==>
                currentPin == old(pinBuffer) && !inMenu && mode == Idle && fx == [Display(PinChanged)]
      ensures key == '*' ==>
                currentPin == old(currentPin) && inMenu == old(inMenu) && mode == Idle && fx == []
      ensures key != '#' && key != '*' ==>
                currentPin == old(currentPin) && inMenu == old(inMenu) && mode == NewPin &&
                pinBuffer == EditPin(old(pinBuffer), key) && fx == [Display(PinRow(Masked(pinBuffer)))]
    {
      if key == '#' {
        currentPin := pinBuffer;
        fx := [Display(PinChanged)];
        inMenu := false;
        mode := Idle;
      } else if key == '*' {
        fx := [];
        mode := Idle;
      } else {
        fx := EditBuffer(key);
      }
    }
  }
}
