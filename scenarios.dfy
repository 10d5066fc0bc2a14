/**
 * Concrete sessions at the keypad, run through the controller one key at a
 * time: each method drives a freshly set-up lock and states where it ends.
 */
module Scenarios {
  import opened LockTypes
  import opened PinEntry
  import opened Cursor
  import opened SlotList
  import opened SensorFlows
  import opened Controller

  /** A sensor holding templates at ids 3, 7 and 12 only. */
  function ThreeStored(): (table: seq<bool>)
    ensures |table| == SLOT_COUNT
  {
    seq(SLOT_COUNT, i => i == 3 || i == 7 || i == 12)
  }

  /** A sensor holding templates at ids 0 and 1 only. */
  function TwoStored(): (table: seq<bool>)
    ensures |table| == SLOT_COUNT
  {
    seq(SLOT_COUNT, i => i < 2)
  }

  /** The removal list of ThreeStored is [3, 7, 12]. */
  lemma ThreeStoredList()
    ensures Occupied(ThreeStored()) == [3, 7, 12]
  {
    var t := ThreeStored();
    forall x
      ensures x in Occupied(t) <==> x in [3, 7, 12]
    {
      OccupiedMembership(t, x);
    }
    OccupiedSpec(t);
    AscendingUnique(Occupied(t), [3, 7, 12]);
  }

  /** Type a four-digit PIN at an open PIN prompt. */
  method TypeFour(c: LockController, a: char, b: char, d: char, e: char)
    requires c.Valid() && c.pinBuffer == [] && (c.mode.MenuPin? || c.mode.OldPin?)
    requires IsDigit(a) && IsDigit(b) && IsDigit(d) && IsDigit(e)
    modifies c
    ensures c.Valid() && c.mode == old(c.mode) && c.pinBuffer == [a, b, d, e]
    ensures c.currentPin == old(c.currentPin) && c.inMenu == old(c.inMenu)
    ensures c.slots[..] == old(c.slots[..])
  {
    var keys := [a, b, d, e];
    for i := 0 to 4
      invariant c.Valid() && c.mode == old(c.mode) && c.pinBuffer == keys[..i]
      invariant c.currentPin == old(c.currentPin) && c.inMenu == old(c.inMenu)
      invariant c.slots[..] == old(c.slots[..])
    {
      assert keys[..i + 1] == keys[..i] + [keys[i]];
      var fx;
      if c.mode.MenuPin? {
        fx := c.StepMenuPin(keys[i]);
      } else {
        fx := c.StepOldPin(keys[i]);
      }
    }
    assert keys[..4] == keys;
  }

  /** From the idle screen, '*' then the master PIN and '#' opens the main menu. */
  method OpenMainMenu(c: LockController)
    requires c.Valid() && c.mode.Idle? && c.currentPin == MASTER_PIN
    modifies c
    ensures c.Valid() && c.mode.MainMenu? && c.inMenu
    ensures c.currentPin == MASTER_PIN && c.slots[..] == old(c.slots[..])
  {
    var fx := c.StepIdle('*', 12, TimedOut);
    TypeFour(c, '9', '9', '9', '9');
    fx := c.StepMenuPin('#');
  }

  /** The master PIN opens the menu of a freshly set-up lock. */
  method MasterPinOpensMenu() returns (m: Mode, shown: seq<Effect>)
    ensures m == MainMenu
    ensures shown == [Display(MenuAccess), Display(MainMenuScreen)]
  {
    var c := new LockController(TwoStored());
    var fx := c.StepIdle('*', 12, TimedOut);
    TypeFour(c, '9', '9', '9', '9');
    shown := c.StepMenuPin('#');
    m := c.mode;
  }

  /** After the PIN is changed to 12, the master PIN is refused and the lock leaves menu mode. */
  method ChangedPinLocksOutMaster() returns (pin: string, m: Mode, shown: seq<Effect>, menuFlag: bool)
    ensures pin == "12"
    ensures m == Idle && !menuFlag
    ensures shown == [Display(WrongPin)]
  {
    var c := new LockController(TwoStored());
    OpenMainMenu(c);
    var fx := c.StepMainMenu('2');
    TypeFour(c, '9', '9', '9', '9');
    fx := c.StepOldPin('#');
    fx := c.StepNewPin('1');
    fx := c.StepNewPin('2');
    assert c.pinBuffer == "12";
    fx := c.StepNewPin('#');
    pin := c.currentPin;
    fx := c.StepIdle('*', 12, TimedOut);
    TypeFour(c, '9', '9', '9', '9');
    shown := c.StepMenuPin('#');
    m, menuFlag := c.mode, c.inMenu;
  }

  /** '#' at an empty new-PIN prompt stores the empty PIN; '#' at an empty menu prompt then opens the menu. */
  method EmptyNewPinIsAccepted() returns (pin: string, m: Mode)
    ensures pin == ""
    ensures m == MainMenu
  {
    var c := new LockController(TwoStored());
    OpenMainMenu(c);
    var fx := c.StepMainMenu('2');
    TypeFour(c, '9', '9', '9', '9');
    fx := c.StepOldPin('#');
    fx := c.StepNewPin('#');
    pin := c.currentPin;
    fx := c.StepIdle('*', 12, TimedOut);
    fx := c.StepMenuPin('#');
    m := c.mode;
  }

  /** A wrong old PIN ends the PIN change but leaves menu mode on, so the idle screen is not redrawn. */
  method WrongOldPinKeepsMenuFlag() returns (m: Mode, menuFlag: bool, nextBanner: seq<Effect>)
    ensures m == Idle && menuFlag
    ensures nextBanner == []
  {
    var c := new LockController(TwoStored());
    OpenMainMenu(c);
    var fx := c.StepMainMenu('2');
    TypeFour(c, '1', '2', '3', '4');
    fx := c.StepOldPin('#');
    m, menuFlag := c.mode, c.inMenu;
    nextBanner := c.StepIdle('D', 12, TimedOut);
  }

  /** Enrollment with ids 0 and 1 taken stores the new finger at id 2. */
  method EnrollTakesLowestFreeId() returns (shownLast: seq<Effect>, stored: seq<bool>)
    ensures shownLast == [Display(FingerAdded(2)), Display(FingerprintMenuScreen)]
    ensures stored == TwoStored()[2 := true]
  {
    var c := new LockController(TwoStored());
    OpenMainMenu(c);
    var fx := c.StepMainMenu('1');
    assert FirstFree(c.slots[..]) == 2 by {
      var id := FirstFree(c.slots[..]);
      assert !c.slots[..][2];
    }
    var all := EnrollReplies(true, true, true, true);
    fx := c.StepFingerprintMenu('1', all);
    shownLast := fx[|fx| - 2..];
    stored := c.slots[..];
  }

  /** From the main menu of a lock holding ids 3, 7 and 12: '1', then '2' opens the removal list. */
  method OpenRemovalList(c: LockController)
    requires c.Valid() && c.mode.MainMenu? && c.slots[..] == ThreeStored()
    modifies c, c.occupiedIDs, c.slots
    ensures c.Valid() && c.mode.RemoveList? && c.slots[..] == ThreeStored()
    ensures c.currentIndex == 0 && c.occupiedIDs[..c.occupiedCount] == [3, 7, 12]
  {
    var fx := c.StepMainMenu('1');
    ThreeStoredList();
    fx := c.StepFingerprintMenu('2', EnrollReplies(true, true, true, true));
  }

  /**
   * With ids 3, 7 and 12 stored, B from the first entry wraps to 12; confirming
   * its deletion leaves [3, 7], the list a new scan of the sensor would give.
   */
  method RemoveAfterWrap() returns (shownAtB: seq<Effect>, shown: seq<Effect>, left: seq<int>, stored: seq<bool>)
    ensures shownAtB == [Display(ShowId(12))]
    ensures shown == [Display(DeletingId(12)), Sensor(DeleteModel(12)), Display(Deleted(12)), Display(FingerprintMenuScreen)]
    ensures stored == ThreeStored()[12 := false]
    ensures left == [3, 7] == Occupied(stored)
  {
    var c := new LockController(ThreeStored());
    OpenMainMenu(c);
    OpenRemovalList(c);
    assert c.occupiedCount == 3;
    assert c.occupiedIDs[2] == c.occupiedIDs[..c.occupiedCount][2] == 12;
    shownAtB := c.StepRemoveList('B');
    assert c.currentIndex == 2;
    var fx := c.StepRemoveList('#');
    assert c.occupiedIDs[..c.occupiedCount] == [3, 7, 12];
    shown := c.StepRemoveConfirm('#', true);
    left := c.occupiedIDs[..c.occupiedCount];
    assert left == RemoveAt([3, 7, 12], 2);
    stored := c.slots[..];
  }
}
