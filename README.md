# Color-correction shortcut settings and fingerprint sensor queries

A Dafny model of two pieces of the Android Settings application.

1. `ToggleDaltonizerPreferenceFragment`, the color-correction ("Daltonizer") screen. Its logic is a small state machine:
   - the preferred accessibility shortcut is a bitmask with a SOFTWARE bit and a HARDWARE bit, and DEFAULT (0) means unset;
   - the mask is decoded into the two checkboxes of an edit dialog and encoded back from them;
   - an enable rule disables the last checked box, so once a shortcut is selected no click can leave none selected;
   - the mask is written to the secure settings only when the dialog is confirmed;
   - a summary lists the selected shortcut titles in a fixed order;
   - the screen also saves and restores the mask, writes the feature's on/off flag, builds its radio-button controllers once, and refuses unknown dialog ids.
2. `FingerprintRepository`, as `FingerprintRepositoryTest` fixes its behaviour: stateless queries over the sensor list and the per-user enrolled lists that the fingerprint manager reports.

Files:
- `preferred_shortcut.dfy` (module `PreferredShortcut`): the bitmask, encode/decode, and the dialog's check, enable and click rules as functions on values. This is where the invariant "once a shortcut is selected, some shortcut stays selected" is proved.
- `secure_settings.dfy` (module `SecureSettings`): the settings table as a class over `map<string, bv32>`.
- `daltonizer.dfy` (module `Daltonizer`): the fragment as a class.
  - Its fields are the mask, the two `CheckBox` objects, the switch-bar flag and the shortcut summary.
  - The shared controller list is a class of its own, `ControllerRegistry`.
  - Each method is specified against the pure functions.
- `fingerprint_repository.dfy` (module `Fingerprint`): the sensor-type lookup, the repository queries, and the test's fixtures with the facts the test asserts about them.
- `wrappers.dfy`: `Option` and `Result`.
- `java_types.dfy` (module `JavaTypes`): `JavaInt`, shared by the shortcut and settings modules.

Modelling choices:
- A Java `int` mask or setting value is a `bv32`, its 32-bit two's-complement pattern. The source's `&` and `|` are then exact.
- The settings store is one table. `KEY_SHORTCUT_TYPE` is `Settings.System.MASTER_MONO`, but the source reads and writes it through `Settings.Secure`, so both keys live in the secure table.
- The key strings `accessibility_display_daltonizer_enabled` and `master_mono` are the platform's values of those constants. `AccessibilityUtil.State` ON/OFF are 1/0.
- The resource lookups and `isGestureNavigateEnabled` are inputs. The three titles, the gesture flag and `AccessibilityUtil.capitalize` (a `string -> string` parameter) are grouped in a `SummaryContext`.
- Creating the edit dialog allocates two fresh `CheckBox` objects. They stand for the views the inflated dialog holds.
- A newly inflated checkbox is assumed unchecked and enabled (`NewBox`). These are the toolkit defaults; the dialog layout is not part of this model.
- Clicking an enabled checkbox toggles it before the listener runs; this is the toolkit's part. A disabled box ignores the click.
- getPreferredShortcutType returns whatever int is stored under the key, so the model accepts any `bv32` there and proves what happens to the other bits.

Observed behaviour (not executed): when the edit dialog opens on a mask that holds neither shortcut bit, for example a stored 0, both boxes start unchecked.
- The enable rule's first branch disables the hardware box.
- No later branch re-enables it, so the hardware shortcut can never be chosen in that dialog.
- Confirming stores DEFAULT or SOFTWARE.

`OpenedWithoutBitOffersSoftwareOnly` states this.

## Model

| member | source | states |
|---|---|---|
| `PreferredShortcut.Encode` | src/com/android/settings/accessibility/ToggleDaltonizerPreferenceFragment.java:174-181 | the rebuilt mask has the SOFTWARE bit iff the software box is checked, the HARDWARE bit iff the hardware box is checked, and no other bit; it is DEFAULT iff neither is checked |
| `PreferredShortcut.EncodeDecode` | src/com/android/settings/accessibility/ToggleDaltonizerPreferenceFragment.java:150-153 | decoding a mask made only of the two shortcut bits into box states and re-encoding gives the same mask |
| `PreferredShortcut.EncodeDecodeMasks` | src/com/android/settings/accessibility/ToggleDaltonizerPreferenceFragment.java:166-181 | on any mask, decode then encode keeps exactly the SOFTWARE and HARDWARE bits |
| `PreferredShortcut.DecodeEncode` | src/com/android/settings/accessibility/ToggleDaltonizerPreferenceFragment.java:166-181 | encode then decode gives back both checkbox states |
| `PreferredShortcut.CheckState` | src/com/android/settings/accessibility/ToggleDaltonizerPreferenceFragment.java:150-153 | each box is checked exactly when `(mask & bit) == bit`; the enabled flags are unchanged |
| `PreferredShortcut.EnableState` | src/com/android/settings/accessibility/ToggleDaltonizerPreferenceFragment.java:155-164 | software unchecked: hardware disabled and software's flag kept; else hardware unchecked: software disabled and hardware's flag kept; else both enabled; checked states never change |
| `PreferredShortcut.OnlyCheckedBoxIsDisabled` | src/com/android/settings/accessibility/ToggleDaltonizerPreferenceFragment.java:155-164 | when exactly one box is checked, the enable rule disables that box |
| `PreferredShortcut.OpenedIsLocked` | src/com/android/settings/accessibility/ToggleDaltonizerPreferenceFragment.java:141-148 | a dialog opened on a mask holding a shortcut bit has a box checked, and its only checked box is disabled |
| `PreferredShortcut.ClickKeepsLocked` | src/com/android/settings/accessibility/ToggleDaltonizerPreferenceFragment.java:166-172 | from such a state, one checkbox click keeps some box checked and the only checked box disabled |
| `PreferredShortcut.ClicksKeepLocked` | src/com/android/settings/accessibility/ToggleDaltonizerPreferenceFragment.java:155-172 | no sequence of clicks can clear the last selected shortcut, so the mask then confirmed is never DEFAULT |
| `PreferredShortcut.OpenedWithoutBitOffersSoftwareOnly` | src/com/android/settings/accessibility/ToggleDaltonizerPreferenceFragment.java:141-172 | a dialog opened with new boxes on a mask with neither shortcut bit starts with nothing checked, never gets the hardware box checked under any clicks, and confirms DEFAULT or SOFTWARE |
| `PreferredShortcut.OpenedMaskRoundTrip` | src/com/android/settings/accessibility/ToggleDaltonizerPreferenceFragment.java:141-185 | opening the dialog on a mask of shortcut bits and confirming without a click rebuilds the same mask |
| `PreferredShortcut.SummaryTitles` | src/com/android/settings/accessibility/ToggleDaltonizerPreferenceFragment.java:203-216 | the title list is non-empty and has at most two entries; the software title comes first when its bit is set or neither bit is; there are two entries iff both bits are set, and then the second is the hardware title |
| `PreferredShortcut.SummaryText` | src/com/android/settings/accessibility/ToggleDaltonizerPreferenceFragment.java:203-217 | the ", "-joined summary is "software, hardware", "hardware" or "software", by the mask's bits |
| `SecureSettings.GetInt` | src/com/android/settings/accessibility/ToggleDaltonizerPreferenceFragment.java:226-232 | a settings read gives the stored value, or the caller's default when the key is absent |
| `SecureSettings.SettingsStore.PutInt` | src/com/android/settings/accessibility/ToggleDaltonizerPreferenceFragment.java:187-194 | a settings write maps the key to the value and keeps every other key |
| `Daltonizer.StoredShortcutType` | src/com/android/settings/accessibility/ToggleDaltonizerPreferenceFragment.java:221-224 | the preferred type is the stored mask, or SOFTWARE when the key is absent |
| `Daltonizer.SwitchValue` | src/com/android/settings/accessibility/ToggleDaltonizerPreferenceFragment.java:282-284 | the switch writes ON iff it is checked, OFF otherwise |
| `Daltonizer.ToggledValue` | src/com/android/settings/accessibility/ToggleDaltonizerPreferenceFragment.java:264-266 | the preference toggle writes OFF iff enabled and ON otherwise, as written |
| `Daltonizer.SwitchRoundTrip` | src/com/android/settings/accessibility/ToggleDaltonizerPreferenceFragment.java:282-290 | after a switch change to c, installing the switch bar shows c |
| `Daltonizer.ToggleIsInverted` | src/com/android/settings/accessibility/ToggleDaltonizerPreferenceFragment.java:264-266 | after the preference is toggled to e, the stored flag reads as not e |
| `Daltonizer.RestoredShortcutType` | src/com/android/settings/accessibility/ToggleDaltonizerPreferenceFragment.java:315-323 | a saved non-DEFAULT value is kept; a saved DEFAULT or missing value becomes the stored mask; with no bundle, the current mask is kept unless it is DEFAULT; with nothing stored, the result is never DEFAULT |
| `Daltonizer.SaveRestoreRoundTrip` | src/com/android/settings/accessibility/ToggleDaltonizerPreferenceFragment.java:101-104 | saving then restoring gives back a non-DEFAULT mask, and turns a DEFAULT mask into the stored one |
| `Daltonizer.DialogMetricsCategory` | src/com/android/settings/accessibility/ToggleDaltonizerPreferenceFragment.java:246-251 | the edit-shortcut dialog gets its category; every other id gets 0 |
| `Daltonizer.ShortcutTypeSummary` | src/com/android/settings/accessibility/ToggleDaltonizerPreferenceFragment.java:196-219 | the capitalized summary of the stored mask is "software, hardware", "hardware" or "software" by its bits; the software title is the gesture one under gesture navigation |
| `Daltonizer.ConfirmedSummary` | src/com/android/settings/accessibility/ToggleDaltonizerPreferenceFragment.java:234-238 | after a confirm, the summary names exactly the checked shortcuts, software first, capitalized; with neither checked, the software title alone |
| `Daltonizer.FirstUseSummary` | src/com/android/settings/accessibility/ToggleDaltonizerPreferenceFragment.java:213-216 | with no stored mask, the summary is the capitalized software title alone |
| `Daltonizer.BuiltControllers` | src/com/android/settings/accessibility/ToggleDaltonizerPreferenceFragment.java:71-84 | an empty list becomes one controller per key, in key order; a non-empty list is returned unchanged |
| `Daltonizer.BuildIsIdempotent` | src/com/android/settings/accessibility/ToggleDaltonizerPreferenceFragment.java:71-84 | building the controllers a second time changes nothing |
| `Daltonizer.BuildPreferenceControllers` | src/com/android/settings/accessibility/ToggleDaltonizerPreferenceFragment.java:71-84 | the loop appends to the shared list exactly as `BuiltControllers` says, and returns that list |
| `Daltonizer.ToggleDaltonizerPreferenceFragment.OnSaveInstanceState` | src/com/android/settings/accessibility/ToggleDaltonizerPreferenceFragment.java:101-104 | the out-state bundle gains the current mask under "shortcutType" and keeps its other entries |
| `Daltonizer.ToggleDaltonizerPreferenceFragment.InitShortcutPreference` | src/com/android/settings/accessibility/ToggleDaltonizerPreferenceFragment.java:315-332 | the mask becomes the restored one, and the summary is computed from the stored mask |
| `Daltonizer.ToggleDaltonizerPreferenceFragment.OnCreateDialog` | src/com/android/settings/accessibility/ToggleDaltonizerPreferenceFragment.java:128-139 | the edit-shortcut id yields the dialog with fresh boxes set from the mask by the check and enable rules; any other id fails with that id and changes nothing |
| `Daltonizer.ToggleDaltonizerPreferenceFragment.InitializeDialogCheckBox` | src/com/android/settings/accessibility/ToggleDaltonizerPreferenceFragment.java:141-148 | two fresh, distinct boxes are decoded from the mask, then the enable rule is applied |
| `Daltonizer.ToggleDaltonizerPreferenceFragment.UpdateAlertDialogCheckState` | src/com/android/settings/accessibility/ToggleDaltonizerPreferenceFragment.java:150-153 | both boxes end up as `CheckState` of their old states and the mask |
| `Daltonizer.ToggleDaltonizerPreferenceFragment.UpdateCheckStatus` | src/com/android/settings/accessibility/ToggleDaltonizerPreferenceFragment.java:166-172 | the box is checked iff the mask holds the bit; its enabled flag is kept |
| `Daltonizer.ToggleDaltonizerPreferenceFragment.UpdateAlertDialogEnableState` | src/com/android/settings/accessibility/ToggleDaltonizerPreferenceFragment.java:155-164 | both boxes end up as `EnableState` of their old states |
| `Daltonizer.ToggleDaltonizerPreferenceFragment.UpdatePreferredShortcutType` | src/com/android/settings/accessibility/ToggleDaltonizerPreferenceFragment.java:174-185 | the mask has each bit iff its box is checked and no other bit; the settings table gains the mask iff saveToDB is set, and is otherwise unchanged |
| `Daltonizer.ToggleDaltonizerPreferenceFragment.ClickCheckBox` | src/com/android/settings/accessibility/ToggleDaltonizerPreferenceFragment.java:166-172 | a click moves the boxes by `Click`; an accepted click rebuilds the mask; the settings table is unchanged |
| `Daltonizer.ToggleDaltonizerPreferenceFragment.ConfirmDialog` | src/com/android/settings/accessibility/ToggleDaltonizerPreferenceFragment.java:234-238 | a confirm rebuilds the mask, stores it under KEY_SHORTCUT_TYPE, and sets the summary from the new table |
| `Daltonizer.ToggleDaltonizerPreferenceFragment.OnSettingsClicked` | src/com/android/settings/accessibility/ToggleDaltonizerPreferenceFragment.java:309-313 | the mask is re-read from the settings, and the edit dialog opens on it |
| `Daltonizer.ToggleDaltonizerPreferenceFragment.OnSwitchChanged` | src/com/android/settings/accessibility/ToggleDaltonizerPreferenceFragment.java:281-284 | the enabled key becomes ON iff checked; nothing else in the table changes |
| `Daltonizer.ToggleDaltonizerPreferenceFragment.OnInstallSwitchBarToggleSwitch` | src/com/android/settings/accessibility/ToggleDaltonizerPreferenceFragment.java:286-292 | the switch bar is checked iff the stored flag (OFF when absent) is ON |
| `Daltonizer.ToggleDaltonizerPreferenceFragment.OnPreferenceToggled` | src/com/android/settings/accessibility/ToggleDaltonizerPreferenceFragment.java:263-266 | the enabled key becomes OFF when enabled and ON otherwise; nothing else changes |
| `Fingerprint.FingerprintRepository.CanAssumeUdfps` | tests/unit/src/com/android/settings/biometrics2/data/repository/FingerprintRepositoryTest.java:71-111 | true exactly when the first sensor is UDFPS optical or UDFPS ultrasonic |
| `Fingerprint.FingerprintRepository.CanAssumeSfps` | tests/unit/src/com/android/settings/biometrics2/data/repository/FingerprintRepositoryTest.java:71-111 | true exactly when the first sensor is a power-button sensor |
| `Fingerprint.FingerprintRepository.MaxFingerprints` | tests/unit/src/com/android/settings/biometrics2/data/repository/FingerprintRepositoryTest.java:113-117 | the first sensor's per-user enrollment limit |
| `Fingerprint.FingerprintRepository.NumOfEnrolledFingerprintsSize` | tests/unit/src/com/android/settings/biometrics2/data/repository/FingerprintRepositoryTest.java:119-126 | the length of the user's enrolled list, 0 for a user with no list |
| `Fingerprint.FingerprintRepository.MaxFingerprintsInSuw` | tests/unit/src/com/android/settings/biometrics2/data/repository/FingerprintRepositoryTest.java:128-136 | the current value of the suw_max_fingerprints_enrollable integer; a missing resource is the not-found error |
| `Fingerprint.WithFirstSensor` | tests/unit/src/com/android/settings/biometrics2/data/repository/FingerprintRepositoryTest.java:147-161 | the fixture reports exactly one sensor, with id 0 and the given type and limit, and keeps the enrolled lists |
| `Fingerprint.WithEnrolledFingerprints` | tests/unit/src/com/android/settings/biometrics2/data/repository/FingerprintRepositoryTest.java:163-172 | the fixture gives the user the requested number of fingerprints (none when negative) and keeps every other user and the sensor list |
| `Fingerprint.WithSuwMaxFingerprints` | tests/unit/src/com/android/settings/biometrics2/data/repository/FingerprintRepositoryTest.java:138-145 | the fixture sets the suw_max_fingerprints_enrollable integer to the value and keeps every other integer resource |
| `Fingerprint.CapabilitiesExclusive` | tests/unit/src/com/android/settings/biometrics2/data/repository/FingerprintRepositoryTest.java:71-111 | no sensor type is both under-display and side-mounted |
| `Fingerprint.CanAssumeSensorType` | tests/unit/src/com/android/settings/biometrics2/data/repository/FingerprintRepositoryTest.java:71-111 | for the test's single-sensor fixture of every type: udfps iff ultrasonic or optical, sfps iff power button, never both |
| `Fingerprint.MaxFingerprintsIgnoresType` | tests/unit/src/com/android/settings/biometrics2/data/repository/FingerprintRepositoryTest.java:113-117 | the fixture's limit is returned, and it is the same for every sensor type |
| `Fingerprint.EnrolledCountPerUser` | tests/unit/src/com/android/settings/biometrics2/data/repository/FingerprintRepositoryTest.java:163-172 | after fixture setup for a user, that user's count is the requested one (0 when negative), and every other user's count is unchanged |
| `Fingerprint.TwoUsersEnrolled` | tests/unit/src/com/android/settings/biometrics2/data/repository/FingerprintRepositoryTest.java:119-126 | users 10 and 22 hold 3 and 99 fingerprints at the same time |
| `Fingerprint.SuwMaxTracksLatest` | tests/unit/src/com/android/settings/biometrics2/data/repository/FingerprintRepositoryTest.java:128-145 | the setup-wizard maximum is the value last set |

## Left out

- View and dialog machinery is not modelled: inflation, `findViewById`, `AlertDialog` construction, `PreferenceScreen` insertion and ordering, `SwitchBar` listener registration and text, and `onCreateView`. The host toolkit owns all of it.
- `onResume` and `onPause` are modelled only through `BuildPreferenceControllers`. They are the file's only callers of `buildPreferenceControllers`, so they are what fills `sControllers`. Their other work is not modelled: attaching and detaching listeners, calling `displayPreference`, and refreshing the shortcut preference's checked state.
- `onCheckedChanged` is not modelled. It hands each controller to `DaltonizerRadioButtonPreferenceController.updateState`, which is not part of this model.
- `onCheckboxClicked` and `updateShortcutPreference` are not modelled. They only call `AccessibilityUtil.optInValueToSettings`, `optOutValueFromSettings` and `hasValueInSettings`, which are not part of this model.
- `getMetricsCategory`, `getHelpResource`, `getPreferenceScreenResId` and `SEARCH_INDEX_DATA_PROVIDER` are not modelled: they are resource and metrics constants.
- `Daltonizer.ShortcutTypeSummary` takes `AccessibilityUtil.capitalize` as a parameter, because its body is not part of this model.
- `Daltonizer.ShortcutTypeSummary` takes the three titles and the gesture-navigation flag as inputs, because they come from resources and system state.
- The settings store is an abstract table. Content-resolver I/O and user ids are not modelled.
- Before the edit dialog is created, the checkbox fields are null. The dialog methods require `DialogOpen()`, because the source only reaches them from listeners the dialog installs.
- `onPreferenceToggled` is modelled as written, with enabled mapped to OFF. Its caller in the base fragment is not part of this model, so it is not treated as a defect.
- `Fingerprint.FingerprintRepository.CanAssumeUdfps`, `CanAssumeSfps` and `MaxFingerprints` require a non-empty sensor list. The test never exercises an empty one, and the repository's own code is not part of this model.
- `Fingerprint.FingerprintRepository.MaxFingerprintsInSuw` reports a missing resource as `ResourcesNotFound`, which is how a real `Resources` object behaves. The test's mock is always stubbed before the query.
- `Fingerprint.FingerprintManager` gives a user with no entry an empty list, which is Mockito's default answer.
- Sensor strength, component info and the reset-lockout flag are not modelled: no test asserts them.
- The internals of the fingerprint manager, Mockito stubbing and `ResourcesUtils` are not modelled; only the values the stubs return are.
