/**
 * The preferred-shortcut bitmask of the color-correction screen
 * (AccessibilityUtil.PreferredShortcutType) and the pure rules built on it:
 * decoding the mask into the two dialog checkboxes, encoding the checkboxes
 * back into a mask, the enable rule that keeps the last selected shortcut
 * from being cleared, and the summary shown under the shortcut preference.
 *
 * A Java `int` is held as its 32-bit two's-complement pattern (`bv32`), so the
 * source's `&` and `|` are Dafny's `&` and `|` with no loss.
 */
module PreferredShortcut {
  import opened JavaTypes

  /** The "unset" sentinel and the two disjoint shortcut bits. */
  const DEFAULT: JavaInt := 0
  const SOFTWARE: JavaInt := 1
  const HARDWARE: JavaInt := 2

  /** The two shortcut kinds the edit dialog offers, one checkbox each. */
  datatype Shortcut = Software | Hardware

  /** The source's test `(mask & type) == type`. */
  predicate HasType(mask: JavaInt, t: JavaInt) {
    mask & t == t
  }

  /** The mask is made of the SOFTWARE and HARDWARE bits only. */
  predicate OnlyShortcutBits(mask: JavaInt) {
    mask & !(SOFTWARE | HARDWARE) == 0
  }

  /**
   * The mask that updatePreferredShortcutType computes from the two
   * checkbox states: reset to DEFAULT, then OR in the bit of each checked box.
   */
  function Encode(software: bool, hardware: bool): (mask: JavaInt)
    ensures HasType(mask, SOFTWARE) <==> software
    ensures HasType(mask, HARDWARE) <==> hardware
    ensures OnlyShortcutBits(mask)
    ensures mask == DEFAULT <==> !software && !hardware
  {
    var m0 := DEFAULT;
    var m1 := if software then m0 | SOFTWARE else m0;
    if hardware then m1 | HARDWARE else m1
  }

  /** Decoding then re-encoding keeps a mask made of the two shortcut bits. */
  lemma EncodeDecode(mask: JavaInt)
    requires OnlyShortcutBits(mask)
    ensures Encode(HasType(mask, SOFTWARE), HasType(mask, HARDWARE)) == mask
  {
  }

  /** On any mask, decoding then re-encoding drops every other bit. */
  lemma EncodeDecodeMasks(mask: JavaInt)
    ensures Encode(HasType(mask, SOFTWARE), HasType(mask, HARDWARE)) == mask & (SOFTWARE | HARDWARE)
  {
  }

  /** Encoding then decoding gives back the two checkbox states. */
  lemma DecodeEncode(software: bool, hardware: bool)
    ensures HasType(Encode(software, hardware), SOFTWARE) == software
    ensures HasType(Encode(software, hardware), HARDWARE) == hardware
  {
  }

  // ---------------------------------------------------------------------------
  // The edit dialog's checkboxes, as values

  datatype BoxState = BoxState(checked: bool, enabled: bool)

  datatype Boxes = Boxes(software: BoxState, hardware: BoxState) {
    function Get(k: Shortcut): BoxState {
      match k
      case Software => software
      case Hardware => hardware
    }

    function Set(k: Shortcut, b: BoxState): Boxes {
      match k
      case Software => this.(software := b)
      case Hardware => this.(hardware := b)
    }

    /** The mask updatePreferredShortcutType computes from these boxes. */
    function Mask(): JavaInt {
      Encode(software.checked, hardware.checked)
    }
  }

  /**
   * A newly inflated CheckBox view: unchecked and enabled, the toolkit's
   * defaults for a check box whose layout sets neither attribute.
   */
  const NewBox := BoxState(false, true)

  /**
   * updateAlertDialogCheckState: each box is checked exactly when its bit is
   * in the mask; the enabled flags are not touched.
   */
  function CheckState(b: Boxes, mask: JavaInt): (r: Boxes)
    ensures r.software.checked == HasType(mask, SOFTWARE)
    ensures r.hardware.checked == HasType(mask, HARDWARE)
    ensures r.software.enabled == b.software.enabled && r.hardware.enabled == b.hardware.enabled
  {
    Boxes(b.software.(checked := HasType(mask, SOFTWARE)),
          b.hardware.(checked := HasType(mask, HARDWARE)))
  }

  /**
   * updateAlertDialogEnableState. With software unchecked the hardware box is
   * disabled; otherwise, with hardware unchecked the software box is
   * disabled; otherwise both are enabled. Checked states never change, and a
   * flag the rule does not set is kept.
   */
  function EnableState(b: Boxes): (r: Boxes)
    ensures r.software.checked == b.software.checked && r.hardware.checked == b.hardware.checked
    ensures !b.software.checked ==> !r.hardware.enabled && r.software.enabled == b.software.enabled
    ensures b.software.checked && !b.hardware.checked ==>
              !r.software.enabled && r.hardware.enabled == b.hardware.enabled
    ensures b.software.checked && b.hardware.checked ==> r.software.enabled && r.hardware.enabled
  {
    if !b.software.checked then
      b.(hardware := b.hardware.(enabled := false))
    else if !b.hardware.checked then
      b.(software := b.software.(enabled := false))
    else
      Boxes(b.software.(enabled := true), b.hardware.(enabled := true))
  }

  /** When exactly one box is checked, the rule disables that box. */
  lemma OnlyCheckedBoxIsDisabled(b: Boxes, k: Shortcut)
    requires b.Get(k).checked
    requires b.software.checked != b.hardware.checked
    ensures !EnableState(b).Get(k).enabled
  {
  }

  /** The boxes as initializeDialogCheckBox leaves them for a given mask. */
  function Opened(b: Boxes, mask: JavaInt): Boxes {
    EnableState(CheckState(b, mask))
  }

  /**
   * A click on a dialog checkbox: an enabled box toggles (the toolkit's
   * part), then the click listener re-encodes the mask without saving it and
   * re-applies the enable rule; a disabled box ignores the click.
   */
  function Click(b: Boxes, k: Shortcut): Boxes {
    var box := b.Get(k);
    if box.enabled then EnableState(b.Set(k, box.(checked := !box.checked))) else b
  }

  function Clicks(b: Boxes, ks: seq<Shortcut>): Boxes
    decreases |ks|
  {
    if ks == [] then b else Clicks(Click(b, ks[0]), ks[1..])
  }

  /**
   * The state the enable rule maintains: some box is checked, and a box that
   * is the only checked one is disabled, so it cannot be unchecked.
   */
  predicate Locked(b: Boxes) {
    && (b.software.checked || b.hardware.checked)
    && (!b.software.checked ==> !b.hardware.enabled)
    && (!b.hardware.checked ==> !b.software.enabled)
  }

  /** Opening the dialog on a mask that holds a shortcut bit gives a locked state. */
  lemma OpenedIsLocked(b: Boxes, mask: JavaInt)
    requires HasType(mask, SOFTWARE) || HasType(mask, HARDWARE)
    ensures Locked(Opened(b, mask))
  {
  }

  /** No click can clear the last selected shortcut. */
  lemma ClickKeepsLocked(b: Boxes, k: Shortcut)
    requires Locked(b)
    ensures Locked(Click(b, k))
  {
  }

  /** Nor can any sequence of clicks. */
  lemma {:induction false} ClicksKeepLocked(b: Boxes, ks: seq<Shortcut>)
    requires Locked(b)
    ensures Locked(Clicks(b, ks))
    ensures Clicks(b, ks).Mask() != DEFAULT
    decreases |ks|
  {
    if ks != [] {
      ClickKeepsLocked(b, ks[0]);
      ClicksKeepLocked(Click(b, ks[0]), ks[1..]);
    }
  }

  /**
   * Opening the dialog on a mask of shortcut bits and confirming it with no
   * click writes the mask back unchanged.
   */
  lemma OpenedMaskRoundTrip(b: Boxes, mask: JavaInt)
    requires OnlyShortcutBits(mask)
    ensures Opened(b, mask).Mask() == mask
  {
    EncodeDecode(mask);
  }

  /**
   * The states a dialog opened on a mask without a shortcut bit can reach:
   * the hardware box unchecked and disabled, and the software box disabled
   * once it is checked.
   */
  predicate SoftwareOnly(b: Boxes) {
    && !b.hardware.checked && !b.hardware.enabled
    && (b.software.checked ==> !b.software.enabled)
  }

  lemma ClickKeepsSoftwareOnly(b: Boxes, k: Shortcut)
    requires SoftwareOnly(b)
    ensures SoftwareOnly(Click(b, k))
  {
  }

  /**
   * A dialog opened with new boxes on a mask that holds neither shortcut
   * bit starts with nothing checked, and no sequence of clicks ever checks
   * the hardware box: the enable rule's first branch disables it and no
   * later branch re-enables it. The mask then confirmed is DEFAULT or SOFTWARE.
   */
  lemma {:induction false} OpenedWithoutBitOffersSoftwareOnly(mask: JavaInt, ks: seq<Shortcut>)
    requires !HasType(mask, SOFTWARE) && !HasType(mask, HARDWARE)
    ensures !Opened(Boxes(NewBox, NewBox), mask).software.checked
    ensures SoftwareOnly(Clicks(Opened(Boxes(NewBox, NewBox), mask), ks))
    ensures Clicks(Opened(Boxes(NewBox, NewBox), mask), ks).Mask() in {DEFAULT, SOFTWARE}
  {
    ClicksKeepSoftwareOnly(Opened(Boxes(NewBox, NewBox), mask), ks);
  }

  lemma {:induction false} ClicksKeepSoftwareOnly(b: Boxes, ks: seq<Shortcut>)
    requires SoftwareOnly(b)
    ensures SoftwareOnly(Clicks(b, ks))
    decreases |ks|
  {
    if ks != [] {
      ClickKeepsSoftwareOnly(b, ks[0]);
      ClicksKeepSoftwareOnly(Click(b, ks[0]), ks[1..]);
    }
  }

  // ---------------------------------------------------------------------------
  // The summary under the shortcut preference

  /**
   * The list getShortcutTypeSummary builds: the software title if its bit is
   * set, then the hardware title if its bit is set, and the software title
   * alone when neither is.
   */
  function SummaryTitles(mask: JavaInt, softwareTitle: string, hardwareTitle: string): (titles: seq<string>)
    ensures 1 <= |titles| <= 2
    ensures titles[0] == if HasType(mask, SOFTWARE) || !HasType(mask, HARDWARE) then softwareTitle else hardwareTitle
    ensures |titles| == 2 <==> HasType(mask, SOFTWARE) && HasType(mask, HARDWARE)
    ensures |titles| == 2 ==> titles[1] == hardwareTitle
  {
    var list := (if HasType(mask, SOFTWARE) then [softwareTitle] else [])
              + (if HasType(mask, HARDWARE) then [hardwareTitle] else []);
    if list == [] then [softwareTitle] else list
  }

  /** TextUtils.join: the parts with the delimiter between neighbours. */
  function Join(delimiter: string, parts: seq<string>): string
    decreases |parts|
  {
    if |parts| == 0 then ""
    else if |parts| == 1 then parts[0]
    else parts[0] + delimiter + Join(delimiter, parts[1..])
  }

  /** The joined summary, before capitalization, for each of the three cases. */
  lemma SummaryText(mask: JavaInt, softwareTitle: string, hardwareTitle: string)
    ensures Join(", ", SummaryTitles(mask, softwareTitle, hardwareTitle)) ==
      if HasType(mask, SOFTWARE) && HasType(mask, HARDWARE) then softwareTitle + ", " + hardwareTitle
      else if HasType(mask, HARDWARE) then hardwareTitle
      else softwareTitle
  {
    var titles := SummaryTitles(mask, softwareTitle, hardwareTitle);
    if |titles| == 2 {
      assert titles[1..] == [hardwareTitle];
    }
  }
}
