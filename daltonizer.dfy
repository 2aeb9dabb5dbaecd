/**
 * ToggleDaltonizerPreferenceFragment: the color-correction settings screen.
 * Its state is the preferred-shortcut mask, the two checkboxes of the edit
 * dialog (absent until the dialog is created), the switch bar's checked
 * flag and the summary of the shortcut preference; the secure settings
 * table and the list of radio-button controllers, shared by every instance
 * of the screen, are objects of their own.
 */
module Daltonizer {
  import opened Wrappers
  import opened JavaTypes
  import opened PreferredShortcut
  import opened SecureSettings

  /** Settings.Secure.ACCESSIBILITY_DISPLAY_DALTONIZER_ENABLED */
  const ENABLED := "accessibility_display_daltonizer_enabled"
  /** Settings.System.MASTER_MONO, read and written through the secure table */
  const KEY_SHORTCUT_TYPE := "master_mono"
  const EXTRA_SHORTCUT_TYPE := "shortcutType"
  const DIALOG_ID_EDIT_SHORTCUT := 1

  /** AccessibilityUtil.State */
  const ON: JavaInt := 1
  const OFF: JavaInt := 0

  /** An instance-state bundle, reduced to its int entries. */
  type Bundle = map<string, JavaInt>

  // ---------------------------------------------------------------------------
  // Pure rules

  /** getPreferredShortcutType: the stored mask, SOFTWARE when none is stored. */
  function StoredShortcutType(table: map<string, JavaInt>): (mask: JavaInt)
    ensures KEY_SHORTCUT_TYPE in table ==> mask == table[KEY_SHORTCUT_TYPE]
    ensures KEY_SHORTCUT_TYPE !in table ==> mask == SOFTWARE
  {
    GetInt(table, KEY_SHORTCUT_TYPE, SOFTWARE)
  }

  /** The value onSwitchChanged writes: ON exactly when the switch is checked. */
  function SwitchValue(isChecked: bool): (v: JavaInt)
    ensures v == ON <==> isChecked
    ensures v == OFF <==> !isChecked
  {
    if isChecked then ON else OFF
  }

  /** The value onPreferenceToggled writes: OFF when enabled, ON otherwise. */
  function ToggledValue(enabled: bool): (v: JavaInt)
    ensures v == OFF <==> enabled
    ensures v == ON <==> !enabled
  {
    if enabled then OFF else ON
  }

  /** The switch bar's state on install: the stored flag, OFF when absent, compared with ON. */
  predicate IsDaltonizerEnabled(table: map<string, JavaInt>) {
    GetInt(table, ENABLED, OFF) == ON
  }

  /** A switch change is what the switch bar shows when it is next installed. */
  lemma SwitchRoundTrip(table: map<string, JavaInt>, isChecked: bool)
    ensures IsDaltonizerEnabled(table[ENABLED := SwitchValue(isChecked)]) == isChecked
  {
  }

  /** A preference toggle stores the opposite of what it was given. */
  lemma ToggleIsInverted(table: map<string, JavaInt>, enabled: bool)
    ensures IsDaltonizerEnabled(table[ENABLED := ToggledValue(enabled)]) == !enabled
  {
  }

  /**
   * The mask initShortcutPreference restores: the bundle's entry (DEFAULT
   * when missing) replaces the current mask when there is a bundle, and a
   * DEFAULT mask is then replaced by the stored one.
   */
  function RestoredShortcutType(current: JavaInt, saved: Option<Bundle>, table: map<string, JavaInt>): (mask: JavaInt)
    ensures saved.Some? && EXTRA_SHORTCUT_TYPE in saved.value && saved.value[EXTRA_SHORTCUT_TYPE] != DEFAULT ==>
              mask == saved.value[EXTRA_SHORTCUT_TYPE]
    ensures saved.Some? && (EXTRA_SHORTCUT_TYPE !in saved.value || saved.value[EXTRA_SHORTCUT_TYPE] == DEFAULT) ==>
              mask == StoredShortcutType(table)
    ensures saved.None? ==> mask == if current == DEFAULT then StoredShortcutType(table) else current
    ensures KEY_SHORTCUT_TYPE !in table ==> mask != DEFAULT
  {
    var fromBundle := match saved
      case Some(b) => GetInt(b, EXTRA_SHORTCUT_TYPE, DEFAULT)
      case None => current;
    if fromBundle == DEFAULT then StoredShortcutType(table) else fromBundle
  }

  /** onSaveInstanceState's bundle: the current mask under EXTRA_SHORTCUT_TYPE. */
  function SavedState(outState: Bundle, mask: JavaInt): Bundle {
    outState[EXTRA_SHORTCUT_TYPE := mask]
  }

  /**
   * Saving then restoring keeps a non-DEFAULT mask; a DEFAULT one comes back
   * as the stored mask, whatever the fragment held before.
   */
  lemma SaveRestoreRoundTrip(outState: Bundle, mask: JavaInt, current: JavaInt, table: map<string, JavaInt>)
    ensures RestoredShortcutType(current, Some(SavedState(outState, mask)), table) ==
              if mask == DEFAULT then StoredShortcutType(table) else mask
  {
  }

  /** getDialogMetricsCategory; the platform's category constant is a parameter. */
  function DialogMetricsCategory(dialogId: int, editShortcutCategory: int): (category: int)
    ensures dialogId == DIALOG_ID_EDIT_SHORTCUT ==> category == editShortcutCategory
    ensures dialogId != DIALOG_ID_EDIT_SHORTCUT ==> category == 0
  {
    if dialogId == DIALOG_ID_EDIT_SHORTCUT then editShortcutCategory else 0
  }

  /**
   * What getShortcutTypeSummary reads from its context: whether gesture
   * navigation is on, the three titles, and AccessibilityUtil.capitalize.
   */
  datatype SummaryContext = SummaryContext(
    gestureNavigation: bool,
    softwareTitle: string,
    softwareGestureTitle: string,
    hardwareTitle: string,
    capitalize: string -> string)
  {
    function SoftwareTitle(): string {
      if gestureNavigation then softwareGestureTitle else softwareTitle
    }
  }

  /**
   * getShortcutTypeSummary: the titles of the stored mask's shortcuts joined
   * with ", " and capitalized; the software title is the gesture one under
   * gesture navigation, and stands alone when neither bit is set.
   */
  function ShortcutTypeSummary(table: map<string, JavaInt>, ctx: SummaryContext): (summary: string)
    ensures var mask := StoredShortcutType(table);
      summary == ctx.capitalize(
        if HasType(mask, SOFTWARE) && HasType(mask, HARDWARE) then ctx.SoftwareTitle() + ", " + ctx.hardwareTitle
        else if HasType(mask, HARDWARE) then ctx.hardwareTitle
        else ctx.SoftwareTitle())
  {
    var mask := StoredShortcutType(table);
    SummaryText(mask, ctx.SoftwareTitle(), ctx.hardwareTitle);
    ctx.capitalize(Join(", ", SummaryTitles(mask, ctx.SoftwareTitle(), ctx.hardwareTitle)))
  }

  /**
   * After the dialog is confirmed, the summary names exactly the checked
   * shortcuts, software first; with neither checked, the software title alone.
   */
  lemma ConfirmedSummary(table: map<string, JavaInt>, b: Boxes, ctx: SummaryContext)
    ensures ShortcutTypeSummary(table[KEY_SHORTCUT_TYPE := b.Mask()], ctx) ==
      ctx.capitalize(
        if b.software.checked && b.hardware.checked then ctx.SoftwareTitle() + ", " + ctx.hardwareTitle
        else if b.hardware.checked then ctx.hardwareTitle
        else ctx.SoftwareTitle())
  {
  }

  /** A never-stored mask is summarised as the software shortcut alone. */
  lemma FirstUseSummary(table: map<string, JavaInt>, ctx: SummaryContext)
    requires KEY_SHORTCUT_TYPE !in table
    ensures ShortcutTypeSummary(table, ctx) == ctx.capitalize(ctx.SoftwareTitle())
  {
  }

  // ---------------------------------------------------------------------------
  // Radio-button controllers

  /** A DaltonizerRadioButtonPreferenceController, known by its preference key. */
  datatype PreferenceController = DaltonizerRadioButtonController(key: string)

  /** The controller list buildPreferenceControllers leaves behind. */
  function BuiltControllers(controllers: seq<PreferenceController>, keys: seq<string>): (r: seq<PreferenceController>)
    ensures |controllers| == 0 ==> |r| == |keys| && forall i :: 0 <= i < |keys| ==> r[i].key == keys[i]
    ensures |controllers| != 0 ==> r == controllers
  {
    if |controllers| == 0 then seq(|keys|, i requires 0 <= i < |keys| => DaltonizerRadioButtonController(keys[i]))
    else controllers
  }

  /** Building again changes nothing. */
  lemma BuildIsIdempotent(controllers: seq<PreferenceController>, keys: seq<string>)
    ensures BuiltControllers(BuiltControllers(controllers, keys), keys) == BuiltControllers(controllers, keys)
  {
  }

  /** The static sControllers list, shared by every instance of the screen. */
  class ControllerRegistry {
    var controllers: seq<PreferenceController>

    constructor ()
      ensures controllers == []
    {
      controllers := [];
    }
  }

  /**
   * buildPreferenceControllers: on an empty list, append one controller per
   * daltonizer mode key, in key order; on a non-empty list, change nothing.
   */
  method BuildPreferenceControllers(registry: ControllerRegistry, daltonizerKeys: seq<string>)
    returns (controllers: seq<PreferenceController>)
    modifies registry
    ensures registry.controllers == BuiltControllers(old(registry.controllers), daltonizerKeys)
    ensures controllers == registry.controllers
  {
    if |registry.controllers| == 0 {
      for i := 0 to |daltonizerKeys|
        invariant |registry.controllers| == i
        invariant forall j :: 0 <= j < i ==> registry.controllers[j] == DaltonizerRadioButtonController(daltonizerKeys[j])
      {
        registry.controllers := registry.controllers + [DaltonizerRadioButtonController(daltonizerKeys[i])];
      }
    }
    controllers := registry.controllers;
  }

  // ---------------------------------------------------------------------------
  // The fragment

  /** A dialog checkbox view. */
  class CheckBox {
    var checked: bool
    var enabled: bool

    constructor ()
      ensures State() == NewBox
    {
      checked, enabled := false, true;
    }

    function State(): BoxState
      reads this
    {
      BoxState(checked, enabled)
    }

    method SetChecked(c: bool)
      modifies this
      ensures State() == old(State()).(checked := c)
    {
      checked := c;
    }

    method SetEnabled(e: bool)
      modifies this
      ensures State() == old(State()).(enabled := e)
    {
      enabled := e;
    }
  }

  datatype Dialog = EditShortcutDialog
  datatype DialogError = UnsupportedDialogId(dialogId: int)

  class ToggleDaltonizerPreferenceFragment {
    const settings: SettingsStore
    var preferredShortcutType: JavaInt
    var softwareTypeCheckBox: CheckBox?
    var hardwareTypeCheckBox: CheckBox?
    var switchBarChecked: bool
    var shortcutSummary: string

    constructor (settings: SettingsStore)
      ensures this.settings == settings
      ensures preferredShortcutType == DEFAULT
      ensures softwareTypeCheckBox == null && hardwareTypeCheckBox == null
      ensures !switchBarChecked && shortcutSummary == ""
    {
      this.settings := settings;
      preferredShortcutType := DEFAULT;
      softwareTypeCheckBox, hardwareTypeCheckBox := null, null;
      switchBarChecked, shortcutSummary := false, "";
    }

    /** The edit dialog has been created: both checkboxes exist and are distinct views. */
    ghost predicate DialogOpen()
      reads this
    {
      softwareTypeCheckBox != null && hardwareTypeCheckBox != null && softwareTypeCheckBox != hardwareTypeCheckBox
    }

    ghost function DialogBoxes(): Boxes
      reads this, softwareTypeCheckBox, hardwareTypeCheckBox
      requires DialogOpen()
    {
      Boxes(softwareTypeCheckBox.State(), hardwareTypeCheckBox.State())
    }

    /** onSaveInstanceState: the bundle gains the current mask. */
    method OnSaveInstanceState(outState: Bundle) returns (saved: Bundle)
      ensures saved == SavedState(outState, preferredShortcutType)
      ensures EXTRA_SHORTCUT_TYPE in saved && saved[EXTRA_SHORTCUT_TYPE] == preferredShortcutType
    {
      saved := outState[EXTRA_SHORTCUT_TYPE := preferredShortcutType];
    }

    /** The state-restoring part of initShortcutPreference, and the summary it sets. */
    method InitShortcutPreference(savedInstanceState: Option<Bundle>, ctx: SummaryContext)
      modifies this`preferredShortcutType, this`shortcutSummary
      ensures preferredShortcutType == RestoredShortcutType(old(preferredShortcutType), savedInstanceState, settings.table)
      ensures shortcutSummary == ShortcutTypeSummary(settings.table, ctx)
    {
      if savedInstanceState.Some? {
        preferredShortcutType := GetInt(savedInstanceState.value, EXTRA_SHORTCUT_TYPE, DEFAULT);
      }
      if preferredShortcutType == DEFAULT {
        preferredShortcutType := StoredShortcutType(settings.table);
      }
      shortcutSummary := ShortcutTypeSummary(settings.table, ctx);
    }

    /** onCreateDialog: only the edit-shortcut dialog exists; any other id is an IllegalArgumentException. */
    method OnCreateDialog(dialogId: int) returns (r: Result<Dialog, DialogError>)
      modifies this`softwareTypeCheckBox, this`hardwareTypeCheckBox
      ensures dialogId == DIALOG_ID_EDIT_SHORTCUT ==>
                && r == Success(EditShortcutDialog)
                && DialogOpen() && fresh(softwareTypeCheckBox) && fresh(hardwareTypeCheckBox)
                && DialogBoxes() == Opened(Boxes(NewBox, NewBox), preferredShortcutType)
      ensures dialogId != DIALOG_ID_EDIT_SHORTCUT ==>
                r == Failure(UnsupportedDialogId(dialogId)) && unchanged(this)
    {
      if dialogId == DIALOG_ID_EDIT_SHORTCUT {
        InitializeDialogCheckBox();
        return Success(EditShortcutDialog);
      }
      return Failure(UnsupportedDialogId(dialogId));
    }

    /** The two checkboxes of the new dialog, set from the mask, then the enable rule. */
    method InitializeDialogCheckBox()
      modifies this`softwareTypeCheckBox, this`hardwareTypeCheckBox
      ensures DialogOpen() && fresh(softwareTypeCheckBox) && fresh(hardwareTypeCheckBox)
      ensures DialogBoxes() == Opened(Boxes(NewBox, NewBox), preferredShortcutType)
    {
      softwareTypeCheckBox := new CheckBox();
      hardwareTypeCheckBox := new CheckBox();
      UpdateAlertDialogCheckState();
      UpdateAlertDialogEnableState();
    }

    method UpdateAlertDialogCheckState()
      requires DialogOpen()
      modifies softwareTypeCheckBox, hardwareTypeCheckBox
      ensures DialogBoxes() == CheckState(old(DialogBoxes()), preferredShortcutType)
    {
      UpdateCheckStatus(softwareTypeCheckBox, SOFTWARE);
      UpdateCheckStatus(hardwareTypeCheckBox, HARDWARE);
    }

    /** updateCheckStatus: the box is checked exactly when the mask holds the bit. */
    method UpdateCheckStatus(checkBox: CheckBox, t: JavaInt)
      modifies checkBox
      ensures checkBox.State() == old(checkBox.State()).(checked := HasType(preferredShortcutType, t))
    {
      checkBox.SetChecked(preferredShortcutType & t == t);
    }

    method UpdateAlertDialogEnableState()
      requires DialogOpen()
      modifies softwareTypeCheckBox, hardwareTypeCheckBox
      ensures DialogBoxes() == EnableState(old(DialogBoxes()))
    {
      if !softwareTypeCheckBox.checked {
        hardwareTypeCheckBox.SetEnabled(false);
      } else if !hardwareTypeCheckBox.checked {
        softwareTypeCheckBox.SetEnabled(false);
      } else {
        softwareTypeCheckBox.SetEnabled(true);
        hardwareTypeCheckBox.SetEnabled(true);
      }
    }

    /**
     * updatePreferredShortcutType: the mask is rebuilt from the checkboxes,
     * and stored only when saveToDB is set.
     */
    method UpdatePreferredShortcutType(saveToDB: bool)
      requires DialogOpen()
      modifies this`preferredShortcutType, settings
      ensures preferredShortcutType == DialogBoxes().Mask()
      ensures HasType(preferredShortcutType, SOFTWARE) == softwareTypeCheckBox.checked
      ensures HasType(preferredShortcutType, HARDWARE) == hardwareTypeCheckBox.checked
      ensures OnlyShortcutBits(preferredShortcutType)
      ensures settings.table == if saveToDB then old(settings.table)[KEY_SHORTCUT_TYPE := preferredShortcutType]
                                else old(settings.table)
    {
      preferredShortcutType := DEFAULT;
      if softwareTypeCheckBox.checked {
        preferredShortcutType := preferredShortcutType | SOFTWARE;
      }
      if hardwareTypeCheckBox.checked {
        preferredShortcutType := preferredShortcutType | HARDWARE;
      }
      if saveToDB {
        settings.PutInt(KEY_SHORTCUT_TYPE, preferredShortcutType);
      }
    }

    /**
     * A click on one of the dialog's checkboxes: an enabled box toggles, then
     * the listener rebuilds the mask without storing it and re-applies the
     * enable rule. A disabled box takes no click.
     */
    method ClickCheckBox(k: Shortcut)
      requires DialogOpen()
      modifies softwareTypeCheckBox, hardwareTypeCheckBox, this`preferredShortcutType, settings
      ensures DialogBoxes() == Click(old(DialogBoxes()), k)
      ensures preferredShortcutType == if old(DialogBoxes()).Get(k).enabled then DialogBoxes().Mask()
                                       else old(preferredShortcutType)
      ensures settings.table == old(settings.table)
    {
      var box := if k == Software then softwareTypeCheckBox else hardwareTypeCheckBox;
      if box.enabled {
        box.SetChecked(!box.checked);
        UpdatePreferredShortcutType(false);
        UpdateAlertDialogEnableState();
      }
    }

    /** callOnAlertDialogCheckboxClicked: the dialog is confirmed; the mask is stored and summarised. */
    method ConfirmDialog(ctx: SummaryContext)
      requires DialogOpen()
      modifies this`preferredShortcutType, this`shortcutSummary, settings
      ensures preferredShortcutType == DialogBoxes().Mask()
      ensures settings.table == old(settings.table)[KEY_SHORTCUT_TYPE := preferredShortcutType]
      ensures shortcutSummary == ShortcutTypeSummary(settings.table, ctx)
    {
      UpdatePreferredShortcutType(true);
      shortcutSummary := ShortcutTypeSummary(settings.table, ctx);
    }

    /** onSettingsClicked: the mask is re-read from the settings and the edit dialog is shown. */
    method OnSettingsClicked() returns (r: Result<Dialog, DialogError>)
      modifies this`preferredShortcutType, this`softwareTypeCheckBox, this`hardwareTypeCheckBox
      ensures preferredShortcutType == StoredShortcutType(settings.table)
      ensures r == Success(EditShortcutDialog)
      ensures DialogOpen() && fresh(softwareTypeCheckBox) && fresh(hardwareTypeCheckBox)
      ensures DialogBoxes() == Opened(Boxes(NewBox, NewBox), preferredShortcutType)
    {
      preferredShortcutType := StoredShortcutType(settings.table);
      r := OnCreateDialog(DIALOG_ID_EDIT_SHORTCUT);
    }

    /** onSwitchChanged: the enabled setting becomes ON exactly when the switch is checked. */
    method OnSwitchChanged(isChecked: bool)
      modifies settings
      ensures settings.table == old(settings.table)[ENABLED := SwitchValue(isChecked)]
    {
      settings.PutInt(ENABLED, if isChecked then ON else OFF);
    }

    /** onInstallSwitchBarToggleSwitch: the switch bar shows the stored enabled setting. */
    method OnInstallSwitchBarToggleSwitch()
      modifies this`switchBarChecked
      ensures switchBarChecked == IsDaltonizerEnabled(settings.table)
    {
      switchBarChecked := GetInt(settings.table, ENABLED, OFF) == ON;
    }

    /** onPreferenceToggled: writes OFF when enabled and ON otherwise, as the source does. */
    method OnPreferenceToggled(preferenceKey: string, enabled: bool)
      modifies settings
      ensures settings.table == old(settings.table)[ENABLED := ToggledValue(enabled)]
    {
      settings.PutInt(ENABLED, if enabled then OFF else ON);
    }
  }
}
