# Fingerprint lock controller — a verified Dafny model

This project models the access-control logic of an Arduino fingerprint door lock
(`FingerprintLockProject.cpp`). A 4x4 keypad, a fingerprint sensor holding up to
128 templates, a relay driving a magnetic lock and a 16x2 LCD are wired to one
sketch. The sketch:

- opens the lock for a matching finger between 08:00 and 20:00;
- guards a menu with a PIN (initially `9999`);
- enrolls fingers into the lowest free template id;
- lists stored ids for deletion with a wrapping A/B cursor;
- changes the PIN.

The sketch is written as nested blocking polling loops whose menu functions call
each other. Every such call is the last thing its caller does, so the model makes
the controller an explicit state machine.

`Controller.LockController` holds these fields:

- the globals `currentPin` and `inMenu`;
- the relay level;
- the polling loop currently running (`mode`);
- that loop's locals: the PIN buffer, the `occupiedIDs` array of 128 with its count, and the cursor;
- the sensor's template memory, as an `array<bool>` of 128 slots.

Each pass of a polling loop that reads one key is one call of a `Step…` method.
The hour and the sensor's replies are parameters of that call. Each call returns,
in order, the effects it had: messages shown, relay levels written, and requests
made to the sensor. The loops of the source stay loops:

- the asterisk row;
- the lowest-free-id scan;
- the enumeration of stored ids;
- the two-sample enrollment;
- the left shift that drops a deleted id.

Each loop is proved against a specification function, and the properties the
sketch promises are proved about those functions.

Modules:

- `LockTypes` (`lock_types.dfy`): constants, messages, sensor calls, effects, and the replies the sensor gives.
- `PinEntry` (`pin_entry.dfy`): the PIN editor shared by the three PIN prompts, and the masked row.
- `Cursor` (`cursor.dfy`): the wrapping cursor arithmetic of the removal list.
- `SlotList` (`slot_list.dfy`): the lowest free id, the ascending list of stored ids, and deleting one entry.
- `SensorFlows` (`sensor_flows.dfy`): the effects of a verification attempt and of an enrollment.
- `Controller` (`controller.dfy`): the controller class.
- `Scenarios` (`scenarios.dfy`): concrete keypad sessions run through the class.

The model follows the code in these places, where a reader might expect otherwise:

- `*` in the removal list goes back to the main menu, not the fingerprint menu.
- A successful delete leaves the removal flow straight away.
- "Wrong Old PIN" and both `*` cancels of the PIN change leave `inMenu` set. Only "PIN Changed" clears it.
- An empty new PIN is accepted.

## Model

| member | source | states |
|---|---|---|
| PinEntry.EditPin | FingerprintLockProject.cpp:215-227 | A digit is appended only when fewer than 16 characters are held; B drops the last character only if there is one; C empties the buffer; any other key leaves it; the buffer stays at most 16 digits |
| PinEntry.EditAll | FingerprintLockProject.cpp:213-227 | A run of keys at a prompt, one pass of the prompt loop per key, adds at most one character per key |
| PinEntry.EditAllStaysPinShaped | FingerprintLockProject.cpp:213-227 | Whatever keys are typed, the buffer never holds more than 16 characters, all digits |
| PinEntry.EditAllLength | FingerprintLockProject.cpp:215-227 | The number of characters held after any key run equals an independent count kept from the keys alone (digit +1 below 16, B -1 above 0, C reset) |
| PinEntry.TypingDigitsEntersThem | FingerprintLockProject.cpp:216-219 | Typing the digits of a PIN of at most 16 digits enters exactly that PIN |
| PinEntry.EditAllSplit | FingerprintLockProject.cpp:213-227 | Editing a run of keys is editing its first part and then its second |
| PinEntry.ClearForgetsEarlierKeys | FingerprintLockProject.cpp:225-227 | After a C, the buffer depends only on the keys typed after it |
| PinEntry.BackspaceUndoesDigit | FingerprintLockProject.cpp:216-224 | B right after an accepted digit restores the previous buffer |
| PinEntry.MaskRow | FingerprintLockProject.cpp:206-211 | The row the loop builds has exactly one `*` per character held |
| LockTypes.WindowIsTwelveHours | FingerprintLockProject.cpp:113 | The unlock window `InWindow` opens at 08:00 (7 is outside, 8 inside), closes at 20:00 (19 inside, 20 outside), and spans exactly 12 hours of the day |
| LockTypes.Loads | FingerprintLockProject.cpp:416-417 | A scan over ids 0 .. n-1 requests loadModel(0), …, loadModel(n-1) in that order, one per id, and nothing else (the same requests as the scan at :317-318) |
| Cursor.Next | FingerprintLockProject.cpp:456-459 | A moves the cursor to the next entry, from the last back to the first; it stays in [0, count) |
| Cursor.Prev | FingerprintLockProject.cpp:452-455 | B moves the cursor to the previous entry, from the first to the last; it stays in [0, count) |
| Cursor.PrevUndoesNext | FingerprintLockProject.cpp:452-459 | B after A, and A after B, return the cursor to where it was |
| Cursor.AdvanceWithinLap | FingerprintLockProject.cpp:456-459 | k <= count presses of A move the cursor k places, wrapping at most once |
| Cursor.FullLapReturns | FingerprintLockProject.cpp:456-459 | count presses of A return the cursor to its start |
| SlotList.FirstFree | FingerprintLockProject.cpp:316-322 | The result is the lowest id whose slot is free, or -1 exactly when every slot is taken |
| SlotList.OccupiedSpec | FingerprintLockProject.cpp:413-420 | The enumeration is strictly ascending, holds only stored ids, and holds every stored id |
| SlotList.OccupiedGrow | FingerprintLockProject.cpp:416-420 | Scanning one more slot appends its id exactly when a template is stored there |
| SlotList.OccupiedMembership | FingerprintLockProject.cpp:416-420 | An id is in the list if and only if it is in range and its slot holds a template |
| SlotList.AscendingUnique | FingerprintLockProject.cpp:413-420 | Two strictly ascending lists with the same ids are equal, so the enumeration is determined by the stored set |
| SlotList.RemoveAt | FingerprintLockProject.cpp:492-495 | Dropping entry i keeps the entries before it and moves each later entry one place left; the count drops by one |
| SlotList.RemoveAtSpec | FingerprintLockProject.cpp:492-495 | The list after the drop is still ascending and holds exactly the old ids except the dropped one |
| SlotList.DeleteMatchesRescan | FingerprintLockProject.cpp:482-495 | Deleting the selected id and shifting it out of the list gives the list a fresh scan of the sensor would give |
| SensorFlows.VerifyEffects | FingerprintLockProject.cpp:147-195 | The relay goes LOW if and only if the image is captured, converted and matched; it then ends with exactly one LOW…HIGH pulse; fingerFastSearch runs only after a successful conversion; a timeout or no match never drives the relay |
| SensorFlows.RunLength | FingerprintLockProject.cpp:357-404 | The number of pipeline steps run: all steps before it succeed, and when it stops early the last step run is the failing one |
| SensorFlows.RunLengthAtFailure | FingerprintLockProject.cpp:375-402 | When the first failing step is k, exactly k+1 steps are run |
| SensorFlows.EnrollRunLength | FingerprintLockProject.cpp:375-402 | A failing first conversion stops after 2 steps, the second after 4, model creation after 5; otherwise all 6 run |
| SensorFlows.EnrollEffects | FingerprintLockProject.cpp:357-405 | Enrollment never drives the relay |
| SensorFlows.EnrollFollowsPipeline | FingerprintLockProject.cpp:357-405 | Enrollment asks the sensor for getImage, image2Tz(1), getImage, image2Tz(2), createModel, storeModel(id) in that order, and stops right after the first failing step |
| SensorFlows.StoreOnlyAfterSamplesAndModel | FingerprintLockProject.cpp:375-397 | storeModel(id) is requested if and only if both conversions and model creation succeeded; a capture is always requested |
| Controller.IdleBanner | FingerprintLockProject.cpp:93-100 | The idle screen is drawn exactly when not in menu mode, with no sensor request and no relay write |
| Controller.RemovalOpening | FingerprintLockProject.cpp:407-439 | Opening the removal list makes no capture and never drives the relay |
| Controller.AddEffects | FingerprintLockProject.cpp:310-354 | With no free id, addFingerprint makes no capture; it never drives the relay |
| Controller.AfterAdd | FingerprintLockProject.cpp:316-338 | addFingerprint changes at most the lowest free slot, and fills it exactly when enrollment succeeds |
| Controller.LockController.constructor | FingerprintLockProject.cpp:57-64 | After setup, the PIN is the master PIN, menu mode is off, the relay is HIGH and the sensor holds the given templates |
| Controller.LockController.Step | FingerprintLockProject.cpp:87-630 | One key in any state:<br>- keeps the invariant (relay HIGH between keys, PIN buffers and the PIN at most 16 digits, cursor inside the list, list equal to the sensor's stored ids);<br>- the relay goes LOW iff `#` on the idle screen within 8 <= hour < 20 with a captured, converted, matched finger;<br>- `currentPin` changes only by `#` at the new-PIN prompt, which is reached only through a matching old PIN;<br>- the menus are entered only by `#` with the buffer equal to the PIN;<br>- an out-of-window `#` makes no sensor request;<br>- the templates change only by enrollment or a confirmed delete |
| Controller.LockController.StepIdle | FingerprintLockProject.cpp:103-126 | `*` opens the PIN prompt with an empty buffer and menu mode on. `#` in the window runs a verification; outside it shows the restriction and makes no sensor request. The idle screen is drawn first unless in menu mode |
| Controller.LockController.EnterMenu | FingerprintLockProject.cpp:197-211 | Sets menu mode, clears the buffer, shows the prompt and an empty row |
| Controller.LockController.StartFingerprint | FingerprintLockProject.cpp:147-180 | Called with the relay HIGH; produces exactly the verification effects of the sensor's replies, writes the relay only through openLock, and leaves it HIGH |
| Controller.LockController.OpenLock | FingerprintLockProject.cpp:182-195 | Writes LOW, shows "Access Granted", writes HIGH, shows the idle screen; the relay ends HIGH |
| Controller.LockController.EditBuffer | FingerprintLockProject.cpp:204-227 | The buffer becomes its edit by the key, and the redrawn row masks it |
| Controller.LockController.StepMenuPin | FingerprintLockProject.cpp:213-250 | `#` opens the main menu iff the buffer equals `currentPin`, otherwise shows "Wrong PIN" and clears menu mode. `*` clears menu mode. Any other key edits the buffer. `currentPin` is never written |
| Controller.LockController.StepMainMenu | FingerprintLockProject.cpp:264-285 | 1 opens the fingerprint menu, 2 the old-PIN prompt with an empty buffer, `*` leaves and clears menu mode; other keys do nothing |
| Controller.LockController.StepFingerprintMenu | FingerprintLockProject.cpp:287-308 | 1 runs addFingerprint: the table becomes AfterAdd and the effects are AddEffects, back in the fingerprint menu. 2 runs removeFingerprint without touching the templates: it shows RemovalOpening of the stored ids and enters the list (cursor 0) exactly when some id is stored. `*` leaves and clears menu mode. Other keys do nothing |
| Controller.LockController.FindFreeSlot | FingerprintLockProject.cpp:315-322 | Returns the lowest free id (or -1), having requested loadModel for ids 0 up to it (or all 128) |
| Controller.LockController.AddFingerprint | FingerprintLockProject.cpp:310-354 | The table becomes AfterAdd and the effects are AddEffects: with no free id, "No Free IDs" after all 128 loads; otherwise loads up to the lowest free id, enrollment into it, and the outcome, then the fingerprint menu |
| Controller.LockController.FingerEnroll | FingerprintLockProject.cpp:357-405 | Returns true exactly when both conversions, model creation and storage succeed. Produces the enrollment effects. Fills slot id on success only |
| Controller.LockController.CollectOccupied | FingerprintLockProject.cpp:413-420 | Leaves in `occupiedIDs[..count]` exactly the ascending list of stored ids, with count in [0, 128], having requested loadModel for all 128 ids |
| Controller.LockController.RemoveFingerprint | FingerprintLockProject.cpp:407-439 | An empty list shows "No Finger" and returns to the fingerprint menu without entering the list. Otherwise it shows the first stored id with the cursor at 0 |
| Controller.LockController.StepRemoveList | FingerprintLockProject.cpp:441-537 | A/B move the cursor by Next/Prev and show the id under it. `#` asks to confirm that id. `*` returns to the main menu. Other keys do nothing |
| Controller.LockController.StepRemoveConfirm | FingerprintLockProject.cpp:472-531 | `#` with a successful delete: frees that slot, drops exactly that entry from the list (others keep their order, count -1), and goes to the fingerprint menu. A failed delete: changes nothing, shows the same id again. `*` returns to the list. The cursor is never moved |
| Controller.LockController.ShiftOut | FingerprintLockProject.cpp:491-495 | The shift loop leaves the list with the entry at the cursor removed and the count one lower |
| Controller.LockController.StepOldPin | FingerprintLockProject.cpp:548-627 | `#` goes to the new-PIN prompt iff the buffer equals `currentPin`, otherwise shows "Wrong Old PIN". `*` leaves. Neither clears menu mode. Other keys edit the buffer |
| Controller.LockController.StepNewPin | FingerprintLockProject.cpp:578-615 | `#` stores the buffer (even empty) as the PIN, shows "PIN Changed" and clears menu mode. `*` leaves with the PIN and menu mode unchanged |
| Scenarios.MasterPinOpensMenu | FingerprintLockProject.cpp:197-236 | On a freshly set-up lock, `*` 9 9 9 9 `#` opens the main menu |
| Scenarios.ChangedPinLocksOutMaster | FingerprintLockProject.cpp:542-609 | After the PIN is changed to 12, 9999 is refused with "Wrong PIN" and menu mode is cleared |
| Scenarios.EmptyNewPinIsAccepted | FingerprintLockProject.cpp:601-609 | `#` at an empty new-PIN prompt stores the empty PIN, after which `*` `#` opens the menu |
| Scenarios.WrongOldPinKeepsMenuFlag | FingerprintLockProject.cpp:616-622 | A wrong old PIN returns to the idle loop with menu mode still set, so the idle screen is not drawn |
| Scenarios.EnrollTakesLowestFreeId | FingerprintLockProject.cpp:316-346 | With ids 0 and 1 taken, a successful enrollment stores the finger at id 2 and reports it |
| Scenarios.RemoveAfterWrap | FingerprintLockProject.cpp:452-498 | With ids 3, 7, 12 stored, B from the first entry shows 12. Deleting it leaves [3, 7], which is the list a rescan would give |

## Left out

- WiFi and NTP (`connectWiFi`, `timeClient`): network I/O. The current hour is a parameter of each step.
- LCD rendering: cursor positions, padding, clearing, backlight, and the formatted time on the idle screen. Every write is one `Display` message identifying what is shown.
  - The sketch redraws the asterisk row without clearing it, so stale asterisks can stay visible after B or C. The model records the row that is written.
  - The screen redraws controlled by `screenNeedsUpdate` in the removal list are emitted in the step that requests them.
- `delay` and `millis`: no timing is modelled.
  - The verification timeout (`millis() - start > 5000`) is the `TimedOut` outcome supplied with the step.
  - A run of unsuccessful `getImage` polls before a capture is one `GetImage` request.
  - The enrollment busy-wait for a finger is one successful capture.
- Sensor driver internals: the `loadModel` reply is the occupancy of the modelled slot. A `loadModel` that fails for another reason, such as a communication error, is not distinguished from a free slot.
  - `storeModel` and `deleteModel` update the slot table when they report success.
  - The replies of `image2Tz`, `fingerFastSearch`, `createModel`, `storeModel` and `deleteModel` are parameters.
  - The result of `fingerFastSearch` is not tied to the templates in the table.
- Keypad scanning: `getKey` is the key parameter of each step. "No key" is any character the current loop does not react to.
- GPIO setup, serial ports and the startup message of `setup`. The constructor gives the state right after `setup`.
- The `accessGranted` global: it is never read or written after its declaration.
- The block after the early return of a successful delete (FingerprintLockProject.cpp:500-513): it is unreachable.
- Call-stack depth: in the sketch each menu calls the next, so a long session nests calls. The model turns these calls into mode changes and does not model stack exhaustion.
- Controller.LockController.Step: the dispatcher states the cross-state guarantees only. The full effects of each key are stated by the per-state method it calls.
