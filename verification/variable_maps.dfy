/**
 * The two constant dictionaries the mapping-file parser resolves names
 * with: key names on a rule's left-hand side to HID keys, and action names
 * on its right-hand side to actions. Each table is built by a run of
 * inserts; here the inserts are kept in short runs, and a table is the
 * union of its runs in insertion order, so a later run would win a name
 * they shared, as a later insert would.
 */
module VariableMaps {
  import opened HidKeys
  import HidParser
  import ActionExecutor

  type Action = ActionExecutor.Action

  /** Letters A to I. */
  const HID_LETTERS_A_I: map<string, HidKey> := map[
    "KEY_A" := HidKey(KEYBOARD_PAGE, 0x04), "KEY_B" := HidKey(KEYBOARD_PAGE, 0x05),
    "KEY_C" := HidKey(KEYBOARD_PAGE, 0x06), "KEY_D" := HidKey(KEYBOARD_PAGE, 0x07),
    "KEY_E" := HidKey(KEYBOARD_PAGE, 0x08), "KEY_F" := HidKey(KEYBOARD_PAGE, 0x09),
    "KEY_G" := HidKey(KEYBOARD_PAGE, 0x0A), "KEY_H" := HidKey(KEYBOARD_PAGE, 0x0B),
    "KEY_I" := HidKey(KEYBOARD_PAGE, 0x0C)
  ]

  /** Letters J to R. */
  const HID_LETTERS_J_R: map<string, HidKey> := map[
    "KEY_J" := HidKey(KEYBOARD_PAGE, 0x0D), "KEY_K" := HidKey(KEYBOARD_PAGE, 0x0E),
    "KEY_L" := HidKey(KEYBOARD_PAGE, 0x0F), "KEY_M" := HidKey(KEYBOARD_PAGE, 0x10),
    "KEY_N" := HidKey(KEYBOARD_PAGE, 0x11), "KEY_O" := HidKey(KEYBOARD_PAGE, 0x12),
    "KEY_P" := HidKey(KEYBOARD_PAGE, 0x13), "KEY_Q" := HidKey(KEYBOARD_PAGE, 0x14),
    "KEY_R" := HidKey(KEYBOARD_PAGE, 0x15)
  ]

  /** Letters S to Z. */
  const HID_LETTERS_S_Z: map<string, HidKey> := map[
    "KEY_S" := HidKey(KEYBOARD_PAGE, 0x16), "KEY_T" := HidKey(KEYBOARD_PAGE, 0x17),
    "KEY_U" := HidKey(KEYBOARD_PAGE, 0x18), "KEY_V" := HidKey(KEYBOARD_PAGE, 0x19),
    "KEY_W" := HidKey(KEYBOARD_PAGE, 0x1A), "KEY_X" := HidKey(KEYBOARD_PAGE, 0x1B),
    "KEY_Y" := HidKey(KEYBOARD_PAGE, 0x1C), "KEY_Z" := HidKey(KEYBOARD_PAGE, 0x1D)
  ]

  /** The number row. */
  const HID_NUMBER_ROW: map<string, HidKey> := map[
    "KEY_1" := HidKey(KEYBOARD_PAGE, 0x1E), "KEY_2" := HidKey(KEYBOARD_PAGE, 0x1F),
    "KEY_3" := HidKey(KEYBOARD_PAGE, 0x20), "KEY_4" := HidKey(KEYBOARD_PAGE, 0x21),
    "KEY_5" := HidKey(KEYBOARD_PAGE, 0x22), "KEY_6" := HidKey(KEYBOARD_PAGE, 0x23),
    "KEY_7" := HidKey(KEYBOARD_PAGE, 0x24), "KEY_8" := HidKey(KEYBOARD_PAGE, 0x25),
    "KEY_9" := HidKey(KEYBOARD_PAGE, 0x26), "KEY_0" := HidKey(KEYBOARD_PAGE, 0x27)
  ]

  /** Basic controls. */
  const HID_CONTROLS: map<string, HidKey> := map[
    "ENTER" := HidKey(KEYBOARD_PAGE, 0x28), "ESCAPE" := HidKey(KEYBOARD_PAGE, 0x29),
    "BACKSPACE" := HidKey(KEYBOARD_PAGE, 0x2A), "TAB" := HidKey(KEYBOARD_PAGE, 0x2B),
    "SPACE" := HidKey(KEYBOARD_PAGE, 0x2C)
  ]

  /** Function keys. */
  const HID_FUNCTION_KEYS: map<string, HidKey> := map[
    "F1" := HidKey(KEYBOARD_PAGE, 0x3A), "F2" := HidKey(KEYBOARD_PAGE, 0x3B),
    "F3" := HidKey(KEYBOARD_PAGE, 0x3C), "F4" := HidKey(KEYBOARD_PAGE, 0x3D),
    "F5" := HidKey(KEYBOARD_PAGE, 0x3E), "F6" := HidKey(KEYBOARD_PAGE, 0x3F),
    "F7" := HidKey(KEYBOARD_PAGE, 0x40), "F8" := HidKey(KEYBOARD_PAGE, 0x41),
    "F9" := HidKey(KEYBOARD_PAGE, 0x42), "F10" := HidKey(KEYBOARD_PAGE, 0x43),
    "F11" := HidKey(KEYBOARD_PAGE, 0x44), "F12" := HidKey(KEYBOARD_PAGE, 0x45)
  ]

  /** Arrows. */
  const HID_ARROWS: map<string, HidKey> := map[
    "RIGHT_ARROW" := HidKey(KEYBOARD_PAGE, 0x4F), "LEFT_ARROW" := HidKey(KEYBOARD_PAGE, 0x50),
    "DOWN_ARROW" := HidKey(KEYBOARD_PAGE, 0x51), "UP_ARROW" := HidKey(KEYBOARD_PAGE, 0x52)
  ]

  /** Modifiers. */
  const HID_MODIFIERS: map<string, HidKey> := map[
    "LEFT_CTRL" := HidKey(KEYBOARD_PAGE, 0xE0), "LEFT_SHIFT" := HidKey(KEYBOARD_PAGE, 0xE1),
    "LEFT_ALT" := HidKey(KEYBOARD_PAGE, 0xE2), "LEFT_GUI" := HidKey(KEYBOARD_PAGE, 0xE3),
    "RIGHT_CTRL" := HidKey(KEYBOARD_PAGE, 0xE4), "RIGHT_SHIFT" := HidKey(KEYBOARD_PAGE, 0xE5),
    "RIGHT_ALT" := HidKey(KEYBOARD_PAGE, 0xE6), "RIGHT_GUI" := HidKey(KEYBOARD_PAGE, 0xE7)
  ]

  /** Consumer-page (media) keys. */
  const HID_CONSUMER: map<string, HidKey> := map[
    "BRIGHTNESS_DOWN" := HidKey(CONSUMER_PAGE, 0x6F), "BRIGHTNESS_UP" := HidKey(CONSUMER_PAGE, 0x70),
    "MEDIA_NEXT" := HidKey(CONSUMER_PAGE, 0xB3), "MEDIA_PREV" := HidKey(CONSUMER_PAGE, 0xB4),
    "EJECT" := HidKey(CONSUMER_PAGE, 0xB8), "MEDIA_PLAY_PAUSE" := HidKey(CONSUMER_PAGE, 0xCD),
    "MUTE" := HidKey(CONSUMER_PAGE, 0xE2), "VOLUME_UP" := HidKey(CONSUMER_PAGE, 0xE9),
    "VOLUME_DOWN" := HidKey(CONSUMER_PAGE, 0xEA)
  ]

  /** The Fn state on Apple's vendor page. */
  const HID_VENDOR: map<string, HidKey> := map[
    "FN_STATE" := HidKey(APPLE_VENDOR_PAGE, 0x03)
  ]

  /** `STRING_TO_HID_KEY`: every name a rule's left-hand side may use. */
  const STRING_TO_HID_KEY: map<string, HidKey> :=
    HID_LETTERS_A_I + HID_LETTERS_J_R + HID_LETTERS_S_Z + HID_NUMBER_ROW + HID_CONTROLS
    + HID_FUNCTION_KEYS + HID_ARROWS + HID_MODIFIERS + HID_CONSUMER + HID_VENDOR

  /** Common shortcuts and editing keys. */
  const COMBO_SHORTCUTS: map<string, Action> := map[
    "WIN+TAB" := ActionExecutor.KeyCombo("WIN+TAB"), "WIN+S" := ActionExecutor.KeyCombo("WIN+S"), "WIN+H" := ActionExecutor.KeyCombo("WIN+H"),
    "WIN+A" := ActionExecutor.KeyCombo("WIN+A"), "DELETE" := ActionExecutor.KeyCombo("DELETE"), "HOME" := ActionExecutor.KeyCombo("HOME"),
    "END" := ActionExecutor.KeyCombo("END"), "PAGE_UP" := ActionExecutor.KeyCombo("PAGE_UP"), "PAGE_DOWN" := ActionExecutor.KeyCombo("PAGE_DOWN")
  ]

  /** Media and volume keys. */
  const COMBO_MEDIA: map<string, Action> := map[
    "MUTE" := ActionExecutor.KeyCombo("MUTE"), "BRIGHTNESS_DOWN" := ActionExecutor.KeyCombo("BRIGHTNESS_DOWN"), "BRIGHTNESS_UP" := ActionExecutor.KeyCombo("BRIGHTNESS_UP"),
    "MEDIA_NEXT" := ActionExecutor.KeyCombo("MEDIA_NEXT"), "MEDIA_PREV" := ActionExecutor.KeyCombo("MEDIA_PREV"), "MEDIA_PLAY_PAUSE" := ActionExecutor.KeyCombo("MEDIA_PLAY_PAUSE"),
    "VOLUME_UP" := ActionExecutor.KeyCombo("VOLUME_UP"), "VOLUME_DOWN" := ActionExecutor.KeyCombo("VOLUME_DOWN")
  ]

  /** Letters A to I. */
  const COMBO_LETTERS_A_I: map<string, Action> := map[
    "A" := ActionExecutor.KeyCombo("A"), "B" := ActionExecutor.KeyCombo("B"), "C" := ActionExecutor.KeyCombo("C"),
    "D" := ActionExecutor.KeyCombo("D"), "E" := ActionExecutor.KeyCombo("E"), "F" := ActionExecutor.KeyCombo("F"),
    "G" := ActionExecutor.KeyCombo("G"), "H" := ActionExecutor.KeyCombo("H"), "I" := ActionExecutor.KeyCombo("I")
  ]

  /** Letters J to R. */
  const COMBO_LETTERS_J_R: map<string, Action> := map[
    "J" := ActionExecutor.KeyCombo("J"), "K" := ActionExecutor.KeyCombo("K"), "L" := ActionExecutor.KeyCombo("L"),
    "M" := ActionExecutor.KeyCombo("M"), "N" := ActionExecutor.KeyCombo("N"), "O" := ActionExecutor.KeyCombo("O"),
    "P" := ActionExecutor.KeyCombo("P"), "Q" := ActionExecutor.KeyCombo("Q"), "R" := ActionExecutor.KeyCombo("R")
  ]

  /** Letters S to Z. */
  const COMBO_LETTERS_S_Z: map<string, Action> := map[
    "S" := ActionExecutor.KeyCombo("S"), "T" := ActionExecutor.KeyCombo("T"), "U" := ActionExecutor.KeyCombo("U"),
    "V" := ActionExecutor.KeyCombo("V"), "W" := ActionExecutor.KeyCombo("W"), "X" := ActionExecutor.KeyCombo("X"),
    "Y" := ActionExecutor.KeyCombo("Y"), "Z" := ActionExecutor.KeyCombo("Z")
  ]

  /** Digits. */
  const COMBO_DIGITS: map<string, Action> := map[
    "0" := ActionExecutor.KeyCombo("0"), "1" := ActionExecutor.KeyCombo("1"), "2" := ActionExecutor.KeyCombo("2"),
    "3" := ActionExecutor.KeyCombo("3"), "4" := ActionExecutor.KeyCombo("4"), "5" := ActionExecutor.KeyCombo("5"),
    "6" := ActionExecutor.KeyCombo("6"), "7" := ActionExecutor.KeyCombo("7"), "8" := ActionExecutor.KeyCombo("8"),
    "9" := ActionExecutor.KeyCombo("9")
  ]

  /** Basic controls. */
  const COMBO_CONTROLS: map<string, Action> := map[
    "ENTER" := ActionExecutor.KeyCombo("ENTER"), "ESCAPE" := ActionExecutor.KeyCombo("ESCAPE"), "BACKSPACE" := ActionExecutor.KeyCombo("BACKSPACE"),
    "TAB" := ActionExecutor.KeyCombo("TAB"), "SPACE" := ActionExecutor.KeyCombo("SPACE")
  ]

  /** Function keys F1 to F6. */
  const COMBO_F1_F6: map<string, Action> := map[
    "F1" := ActionExecutor.KeyCombo("F1"), "F2" := ActionExecutor.KeyCombo("F2"), "F3" := ActionExecutor.KeyCombo("F3"),
    "F4" := ActionExecutor.KeyCombo("F4"), "F5" := ActionExecutor.KeyCombo("F5"), "F6" := ActionExecutor.KeyCombo("F6")
  ]

  /** Function keys F7 to F12. */
  const COMBO_F7_F12: map<string, Action> := map[
    "F7" := ActionExecutor.KeyCombo("F7"), "F8" := ActionExecutor.KeyCombo("F8"), "F9" := ActionExecutor.KeyCombo("F9"),
    "F10" := ActionExecutor.KeyCombo("F10"), "F11" := ActionExecutor.KeyCombo("F11"), "F12" := ActionExecutor.KeyCombo("F12")
  ]

  /** Arrows. */
  const COMBO_ARROWS: map<string, Action> := map[
    "RIGHT_ARROW" := ActionExecutor.KeyCombo("RIGHT_ARROW"), "LEFT_ARROW" := ActionExecutor.KeyCombo("LEFT_ARROW"), "DOWN_ARROW" := ActionExecutor.KeyCombo("DOWN_ARROW"),
    "UP_ARROW" := ActionExecutor.KeyCombo("UP_ARROW")
  ]

  /** `STRING_TO_ACTION`: right-hand sides that are looked up rather than parsed. */
  const STRING_TO_ACTION: map<string, Action> :=
    COMBO_SHORTCUTS + COMBO_MEDIA + COMBO_LETTERS_A_I + COMBO_LETTERS_J_R + COMBO_LETTERS_S_Z
    + COMBO_DIGITS + COMBO_CONTROLS + COMBO_F1_F6 + COMBO_F7_F12 + COMBO_ARROWS

  /** The position of a key in (page, usage) order. */
  function Rank(key: HidKey): int
  {
    key.usagePage * 0x1_0000 + key.usage
  }

  /** No two names of `m` denote the same key. */
  predicate Injective(m: map<string, HidKey>)
  {
    forall a, b :: a in m && b in m && m[a] == m[b] ==> a == b
  }

  /** Every key of `m` ranks in `lo..hi`, excluding `hi`. */
  predicate RanksWithin(m: map<string, HidKey>, lo: int, hi: int)
  {
    forall name :: name in m ==> lo <= Rank(m[name]) < hi
  }

  predicate OnKnownPage(key: HidKey)
  {
    key.usagePage in {KEYBOARD_PAGE, CONSUMER_PAGE, APPLE_VENDOR_PAGE}
  }

  predicate AllOnKnownPages(m: map<string, HidKey>)
  {
    forall name :: name in m ==> OnKnownPage(m[name])
  }

  /** A table that is injective, on known pages and inside the rank range `lo..hi`. */
  predicate WellFormed(m: map<string, HidKey>, lo: int, hi: int)
  {
    Injective(m) && AllOnKnownPages(m) && RanksWithin(m, lo, hi)
  }

  /** `name` is spelt `KEY_` followed by something. */
  predicate HasKeyPrefix(name: string)
  {
    |name| >= 4 && name[0] == 'K' && name[1] == 'E' && name[2] == 'Y' && name[3] == '_'
  }

  /** Tables in disjoint rank ranges, each well formed, stay well formed when joined. */
  lemma UnionWellFormed(a: map<string, HidKey>, b: map<string, HidKey>, lo: int, mid: int, hi: int)
    requires lo <= mid <= hi && WellFormed(a, lo, mid) && WellFormed(b, mid, hi)
    ensures WellFormed(a + b, lo, hi)
  {
    forall x | x in a + b ensures lo <= Rank((a + b)[x]) < hi && OnKnownPage((a + b)[x])
    {
      if x in b {
        assert (a + b)[x] == b[x];
      } else {
        assert (a + b)[x] == a[x] && x in a;
      }
    }
    forall x, y | x in a + b && y in a + b && (a + b)[x] == (a + b)[y]
      ensures x == y
    {
      if x in b { assert Rank((a + b)[x]) >= mid; } else { assert x in a && Rank((a + b)[x]) < mid; }
      if y in b { assert Rank((a + b)[y]) >= mid; } else { assert y in a && Rank((a + b)[y]) < mid; }
    }
  }

  /** A name that the later table does not hold keeps its entry in the join. */
  lemma UnionKeeps(a: map<string, HidKey>, b: map<string, HidKey>, name: string)
    requires name in a && name !in b
    ensures name in a + b && (a + b)[name] == a[name]
  {
  }

  /** The letter (A to I) names denote distinct keys. */
  lemma LettersAIDistinct()
    ensures forall a, b :: a in HID_LETTERS_A_I && b in HID_LETTERS_A_I && HID_LETTERS_A_I[a] == HID_LETTERS_A_I[b] ==> a == b
  {
  }

  /** The letter (A to I) keys are on one page and in their own rank range. */
  lemma LettersAIRanks()
    ensures forall name :: name in HID_LETTERS_A_I ==> HID_LETTERS_A_I[name].usagePage == KEYBOARD_PAGE && 0x7_0004 <= Rank(HID_LETTERS_A_I[name]) < 0x7_000D
  {
  }

  /** The letter (A to I) names are spelt KEY_ and one letter from A to I. */
  lemma LettersAINames()
    ensures forall name :: name in HID_LETTERS_A_I ==> HasKeyPrefix(name) && |name| == 5 && 'A' <= name[4] <= 'I'
  {
  }

  lemma LettersAIWellFormed()
    ensures WellFormed(HID_LETTERS_A_I, 0x7_0004, 0x7_000D)
  {
    LettersAIDistinct();
    LettersAIRanks();
  }

  /** The letter (J to R) names denote distinct keys. */
  lemma LettersJRDistinct()
    ensures forall a, b :: a in HID_LETTERS_J_R && b in HID_LETTERS_J_R && HID_LETTERS_J_R[a] == HID_LETTERS_J_R[b] ==> a == b
  {
  }

  /** The letter (J to R) keys are on one page and in their own rank range. */
  lemma LettersJRRanks()
    ensures forall name :: name in HID_LETTERS_J_R ==> HID_LETTERS_J_R[name].usagePage == KEYBOARD_PAGE && 0x7_000D <= Rank(HID_LETTERS_J_R[name]) < 0x7_0016
  {
  }

  /** The letter (J to R) names are spelt KEY_ and one letter from J to R. */
  lemma LettersJRNames()
    ensures forall name :: name in HID_LETTERS_J_R ==> HasKeyPrefix(name) && |name| == 5 && 'J' <= name[4] <= 'R'
  {
  }

  lemma LettersJRWellFormed()
    ensures WellFormed(HID_LETTERS_J_R, 0x7_000D, 0x7_0016)
  {
    LettersJRDistinct();
    LettersJRRanks();
  }

  /** The letter (S to Z) names denote distinct keys. */
  lemma LettersSZDistinct()
    ensures forall a, b :: a in HID_LETTERS_S_Z && b in HID_LETTERS_S_Z && HID_LETTERS_S_Z[a] == HID_LETTERS_S_Z[b] ==> a == b
  {
  }

  /** The letter (S to Z) keys are on one page and in their own rank range. */
  lemma LettersSZRanks()
    ensures forall name :: name in HID_LETTERS_S_Z ==> HID_LETTERS_S_Z[name].usagePage == KEYBOARD_PAGE && 0x7_0016 <= Rank(HID_LETTERS_S_Z[name]) < 0x7_001E
  {
  }

  /** The letter (S to Z) names are spelt KEY_ and one letter from S to Z. */
  lemma LettersSZNames()
    ensures forall name :: name in HID_LETTERS_S_Z ==> HasKeyPrefix(name) && |name| == 5 && 'S' <= name[4] <= 'Z'
  {
  }

  lemma LettersSZWellFormed()
    ensures WellFormed(HID_LETTERS_S_Z, 0x7_0016, 0x7_001E)
  {
    LettersSZDistinct();
    LettersSZRanks();
  }

  /** The number-row names denote distinct keys. */
  lemma NumberRowDistinct()
    ensures forall a, b :: a in HID_NUMBER_ROW && b in HID_NUMBER_ROW && HID_NUMBER_ROW[a] == HID_NUMBER_ROW[b] ==> a == b
  {
  }

  /** The number-row keys are on one page and in their own rank range. */
  lemma NumberRowRanks()
    ensures forall name :: name in HID_NUMBER_ROW ==> HID_NUMBER_ROW[name].usagePage == KEYBOARD_PAGE && 0x7_001E <= Rank(HID_NUMBER_ROW[name]) < 0x7_0028
  {
  }

  /** The number-row names are spelt KEY_ and one digit. */
  lemma NumberRowNames()
    ensures forall name :: name in HID_NUMBER_ROW ==> HasKeyPrefix(name) && |name| == 5 && '0' <= name[4] <= '9'
  {
  }

  lemma NumberRowWellFormed()
    ensures WellFormed(HID_NUMBER_ROW, 0x7_001E, 0x7_0028)
  {
    NumberRowDistinct();
    NumberRowRanks();
  }

  /** The control names denote distinct keys. */
  lemma ControlsDistinct()
    ensures forall a, b :: a in HID_CONTROLS && b in HID_CONTROLS && HID_CONTROLS[a] == HID_CONTROLS[b] ==> a == b
  {
  }

  /** The control keys are on one page and in their own rank range. */
  lemma ControlsRanks()
    ensures forall name :: name in HID_CONTROLS ==> HID_CONTROLS[name].usagePage == KEYBOARD_PAGE && 0x7_0028 <= Rank(HID_CONTROLS[name]) < 0x7_003A
  {
  }

  /** The control names are not spelt with KEY_. */
  lemma ControlsNames()
    ensures forall name :: name in HID_CONTROLS ==> !HasKeyPrefix(name)
  {
  }

  lemma ControlsWellFormed()
    ensures WellFormed(HID_CONTROLS, 0x7_0028, 0x7_003A)
  {
    ControlsDistinct();
    ControlsRanks();
  }

  /** The function-key names denote distinct keys. */
  lemma FunctionKeysDistinct()
    ensures forall a, b :: a in HID_FUNCTION_KEYS && b in HID_FUNCTION_KEYS && HID_FUNCTION_KEYS[a] == HID_FUNCTION_KEYS[b] ==> a == b
  {
  }

  /** The function-key keys are on one page and in their own rank range. */
  lemma FunctionKeysRanks()
    ensures forall name :: name in HID_FUNCTION_KEYS ==> HID_FUNCTION_KEYS[name].usagePage == KEYBOARD_PAGE && 0x7_003A <= Rank(HID_FUNCTION_KEYS[name]) < 0x7_004F
  {
  }

  /** The function-key names are at most three characters long. */
  lemma FunctionKeysNames()
    ensures forall name :: name in HID_FUNCTION_KEYS ==> !HasKeyPrefix(name) && |name| <= 3
  {
  }

  lemma FunctionKeysWellFormed()
    ensures WellFormed(HID_FUNCTION_KEYS, 0x7_003A, 0x7_004F)
  {
    FunctionKeysDistinct();
    FunctionKeysRanks();
  }

  /** The arrow names denote distinct keys. */
  lemma ArrowsDistinct()
    ensures forall a, b :: a in HID_ARROWS && b in HID_ARROWS && HID_ARROWS[a] == HID_ARROWS[b] ==> a == b
  {
  }

  /** The arrow keys are on one page and in their own rank range. */
  lemma ArrowsRanks()
    ensures forall name :: name in HID_ARROWS ==> HID_ARROWS[name].usagePage == KEYBOARD_PAGE && 0x7_004F <= Rank(HID_ARROWS[name]) < 0x7_00E0
  {
  }

  /** The arrow names are longer than three characters. */
  lemma ArrowsNames()
    ensures forall name :: name in HID_ARROWS ==> !HasKeyPrefix(name) && |name| > 3
  {
  }

  lemma ArrowsWellFormed()
    ensures WellFormed(HID_ARROWS, 0x7_004F, 0x7_00E0)
  {
    ArrowsDistinct();
    ArrowsRanks();
  }

  /** The modifier names denote distinct keys. */
  lemma ModifiersDistinct()
    ensures forall a, b :: a in HID_MODIFIERS && b in HID_MODIFIERS && HID_MODIFIERS[a] == HID_MODIFIERS[b] ==> a == b
  {
  }

  /** The modifier keys are on one page and in their own rank range. */
  lemma ModifiersRanks()
    ensures forall name :: name in HID_MODIFIERS ==> HID_MODIFIERS[name].usagePage == KEYBOARD_PAGE && 0x7_00E0 <= Rank(HID_MODIFIERS[name]) < 0xC_006F
  {
  }

  /** The modifier names are longer than three characters and start with L or R. */
  lemma ModifiersNames()
    ensures forall name :: name in HID_MODIFIERS ==> !HasKeyPrefix(name) && |name| > 3 && (name[0] == 'L' || name[0] == 'R')
  {
  }

  lemma ModifiersWellFormed()
    ensures WellFormed(HID_MODIFIERS, 0x7_00E0, 0xC_006F)
  {
    ModifiersDistinct();
    ModifiersRanks();
  }

  /** The consumer-page names denote distinct keys. */
  lemma ConsumerDistinct()
    ensures forall a, b :: a in HID_CONSUMER && b in HID_CONSUMER && HID_CONSUMER[a] == HID_CONSUMER[b] ==> a == b
  {
  }

  /** The consumer-page keys are on one page and in their own rank range. */
  lemma ConsumerRanks()
    ensures forall name :: name in HID_CONSUMER ==> HID_CONSUMER[name].usagePage == CONSUMER_PAGE && 0xC_006F <= Rank(HID_CONSUMER[name]) < 0xFF00_0003
  {
  }

  /** The consumer-page names are longer than three characters and start with neither L nor R. */
  lemma ConsumerNames()
    ensures forall name :: name in HID_CONSUMER ==> !HasKeyPrefix(name) && |name| > 3 && name[0] != 'L' && name[0] != 'R'
  {
  }

  lemma ConsumerWellFormed()
    ensures WellFormed(HID_CONSUMER, 0xC_006F, 0xFF00_0003)
  {
    ConsumerDistinct();
    ConsumerRanks();
  }

  /** The vendor-page names denote distinct keys. */
  lemma VendorDistinct()
    ensures forall a, b :: a in HID_VENDOR && b in HID_VENDOR && HID_VENDOR[a] == HID_VENDOR[b] ==> a == b
  {
  }

  /** The vendor-page keys are on one page and in their own rank range. */
  lemma VendorRanks()
    ensures forall name :: name in HID_VENDOR ==> HID_VENDOR[name].usagePage == APPLE_VENDOR_PAGE && 0xFF00_0003 <= Rank(HID_VENDOR[name]) < 0xFF00_0004
  {
  }

  /** The vendor-page names are FN_STATE alone. */
  lemma VendorNames()
    ensures forall name :: name in HID_VENDOR ==> name == "FN_STATE"
  {
  }

  lemma VendorWellFormed()
    ensures WellFormed(HID_VENDOR, 0xFF00_0003, 0xFF00_0004)
  {
    VendorDistinct();
    VendorRanks();
  }

  /** No two names of `STRING_TO_HID_KEY` denote the same key, and every key is on the Keyboard, Consumer or Apple vendor page. */
  lemma KeyTableWellFormed()
    ensures Injective(STRING_TO_HID_KEY) && AllOnKnownPages(STRING_TO_HID_KEY)
  {
    LettersAIWellFormed();
    var m := HID_LETTERS_A_I;
    LettersJRWellFormed();
    UnionWellFormed(m, HID_LETTERS_J_R, 0x7_0004, 0x7_000D, 0x7_0016);
    m := m + HID_LETTERS_J_R;
    LettersSZWellFormed();
    UnionWellFormed(m, HID_LETTERS_S_Z, 0x7_0004, 0x7_0016, 0x7_001E);
    m := m + HID_LETTERS_S_Z;
    NumberRowWellFormed();
    UnionWellFormed(m, HID_NUMBER_ROW, 0x7_0004, 0x7_001E, 0x7_0028);
    m := m + HID_NUMBER_ROW;
    ControlsWellFormed();
    UnionWellFormed(m, HID_CONTROLS, 0x7_0004, 0x7_0028, 0x7_003A);
    m := m + HID_CONTROLS;
    FunctionKeysWellFormed();
    UnionWellFormed(m, HID_FUNCTION_KEYS, 0x7_0004, 0x7_003A, 0x7_004F);
    m := m + HID_FUNCTION_KEYS;
    ArrowsWellFormed();
    UnionWellFormed(m, HID_ARROWS, 0x7_0004, 0x7_004F, 0x7_00E0);
    m := m + HID_ARROWS;
    ModifiersWellFormed();
    UnionWellFormed(m, HID_MODIFIERS, 0x7_0004, 0x7_00E0, 0xC_006F);
    m := m + HID_MODIFIERS;
    ConsumerWellFormed();
    UnionWellFormed(m, HID_CONSUMER, 0x7_0004, 0xC_006F, 0xFF00_0003);
    m := m + HID_CONSUMER;
    VendorWellFormed();
    UnionWellFormed(m, HID_VENDOR, 0x7_0004, 0xFF00_0003, 0xFF00_0004);
  }


  /** A name spelt with KEY_ is none of the control, function-key or arrow names ... */
  lemma KeyPrefixedNotEarlyKeys(name: string)
    requires HasKeyPrefix(name)
    ensures name !in HID_CONTROLS && name !in HID_FUNCTION_KEYS && name !in HID_ARROWS
  {
    ControlsNames();
    FunctionKeysNames();
    ArrowsNames();
  }

  /** ... nor any modifier, consumer-page or vendor-page name. */
  lemma KeyPrefixedNotLateKeys(name: string)
    requires HasKeyPrefix(name)
    ensures name !in HID_MODIFIERS && name !in HID_CONSUMER && name !in HID_VENDOR
  {
    ModifiersNames();
    ConsumerNames();
    VendorNames();
  }

  /** A name spelt with KEY_ keeps the key the first four groups give it. */
  lemma KeyPrefixedSurvive(name: string)
    requires HasKeyPrefix(name) && name in HID_LETTERS_A_I + HID_LETTERS_J_R + HID_LETTERS_S_Z + HID_NUMBER_ROW
    ensures name in STRING_TO_HID_KEY
    ensures STRING_TO_HID_KEY[name] == (HID_LETTERS_A_I + HID_LETTERS_J_R + HID_LETTERS_S_Z + HID_NUMBER_ROW)[name]
  {
    KeyPrefixedNotEarlyKeys(name);
    KeyPrefixedNotLateKeys(name);
  }

  /** A letter name from A to I is spelt with KEY_ and is in no later group spelt so. */
  lemma LettersAINotLater(name: string)
    requires name in HID_LETTERS_A_I
    ensures HasKeyPrefix(name) && name !in HID_LETTERS_J_R && name !in HID_LETTERS_S_Z && name !in HID_NUMBER_ROW
  {
    LettersAINames();
    LettersJRNames();
    LettersSZNames();
    NumberRowNames();
  }

  lemma LettersAISurvive(name: string)
    requires name in HID_LETTERS_A_I
    ensures name in STRING_TO_HID_KEY && STRING_TO_HID_KEY[name] == HID_LETTERS_A_I[name]
  {
    LettersAINotLater(name);
    UnionKeeps(HID_LETTERS_A_I, HID_LETTERS_J_R, name);
    UnionKeeps(HID_LETTERS_A_I + HID_LETTERS_J_R, HID_LETTERS_S_Z, name);
    UnionKeeps(HID_LETTERS_A_I + HID_LETTERS_J_R + HID_LETTERS_S_Z, HID_NUMBER_ROW, name);
    KeyPrefixedSurvive(name);
  }

  /** A letter name from J to R is spelt with KEY_ and is in no later group spelt so. */
  lemma LettersJRNotLater(name: string)
    requires name in HID_LETTERS_J_R
    ensures HasKeyPrefix(name) && name !in HID_LETTERS_S_Z && name !in HID_NUMBER_ROW
  {
    LettersJRNames();
    LettersSZNames();
    NumberRowNames();
  }

  lemma LettersJRSurvive(name: string)
    requires name in HID_LETTERS_J_R
    ensures name in STRING_TO_HID_KEY && STRING_TO_HID_KEY[name] == HID_LETTERS_J_R[name]
  {
    LettersJRNotLater(name);
    UnionKeeps(HID_LETTERS_A_I + HID_LETTERS_J_R, HID_LETTERS_S_Z, name);
    UnionKeeps(HID_LETTERS_A_I + HID_LETTERS_J_R + HID_LETTERS_S_Z, HID_NUMBER_ROW, name);
    KeyPrefixedSurvive(name);
  }

  /** A letter name from S to Z is spelt with KEY_ and is not a number-row name. */
  lemma LettersSZNotLater(name: string)
    requires name in HID_LETTERS_S_Z
    ensures HasKeyPrefix(name) && name !in HID_NUMBER_ROW
  {
    LettersSZNames();
    NumberRowNames();
  }

  lemma LettersSZSurvive(name: string)
    requires name in HID_LETTERS_S_Z
    ensures name in STRING_TO_HID_KEY && STRING_TO_HID_KEY[name] == HID_LETTERS_S_Z[name]
  {
    LettersSZNotLater(name);
    UnionKeeps(HID_LETTERS_A_I + HID_LETTERS_J_R + HID_LETTERS_S_Z, HID_NUMBER_ROW, name);
    KeyPrefixedSurvive(name);
  }

  lemma NumberRowSurvive(name: string)
    requires name in HID_NUMBER_ROW
    ensures name in STRING_TO_HID_KEY && STRING_TO_HID_KEY[name] == HID_NUMBER_ROW[name]
  {
    NumberRowNames();
    KeyPrefixedSurvive(name);
  }

  /** A function-key name is too short to be an arrow, modifier, consumer-page or vendor-page name. */
  lemma FunctionKeysNotLater(name: string)
    requires name in HID_FUNCTION_KEYS
    ensures name !in HID_ARROWS && name !in HID_MODIFIERS && name !in HID_CONSUMER && name !in HID_VENDOR
  {
    FunctionKeysNames();
    ArrowsNames();
    ModifiersNames();
    ConsumerNames();
    VendorNames();
  }

  lemma FunctionKeysSurvive(name: string)
    requires name in HID_FUNCTION_KEYS
    ensures name in STRING_TO_HID_KEY && STRING_TO_HID_KEY[name] == HID_FUNCTION_KEYS[name]
  {
    FunctionKeysNotLater(name);
  }

  /** A modifier name starts with L or R, which no consumer-page name does. */
  lemma ModifiersNotLater(name: string)
    requires name in HID_MODIFIERS
    ensures name !in HID_CONSUMER && name !in HID_VENDOR
  {
    ModifiersNames();
    ConsumerNames();
    VendorNames();
  }

  lemma ModifiersSurvive(name: string)
    requires name in HID_MODIFIERS
    ensures name in STRING_TO_HID_KEY && STRING_TO_HID_KEY[name] == HID_MODIFIERS[name]
  {
    ModifiersNotLater(name);
  }

  /** A consumer-page name is not FN_STATE, the one later name. */
  lemma ConsumerSurvive(name: string)
    requires name in HID_CONSUMER
    ensures name in STRING_TO_HID_KEY && STRING_TO_HID_KEY[name] == HID_CONSUMER[name]
  {
    ConsumerNotVendor(name);
  }

  lemma ConsumerNotVendor(name: string)
    requires name in HID_CONSUMER
    ensures name !in HID_VENDOR
  {
    VendorNames();
  }


  /** The vendor group comes last, so its name keeps its key in the full table. */
  lemma VendorSurvive(name: string)
    requires name in HID_VENDOR
    ensures name in STRING_TO_HID_KEY && STRING_TO_HID_KEY[name] == HID_VENDOR[name]
  {
  }

  const LETTER_NAMES: seq<string> := [
    "KEY_A", "KEY_B", "KEY_C", "KEY_D", "KEY_E", "KEY_F", "KEY_G", "KEY_H", "KEY_I",
    "KEY_J", "KEY_K", "KEY_L", "KEY_M", "KEY_N", "KEY_O", "KEY_P", "KEY_Q", "KEY_R",
    "KEY_S", "KEY_T", "KEY_U", "KEY_V", "KEY_W", "KEY_X", "KEY_Y", "KEY_Z"
  ]

  lemma LettersAIListed()
    ensures forall i :: 0 <= i < 9 ==>
      LETTER_NAMES[i] in HID_LETTERS_A_I && HID_LETTERS_A_I[LETTER_NAMES[i]] == HidKey(KEYBOARD_PAGE, 0x04 + i)
  {
  }

  lemma LettersJRListed()
    ensures forall i :: 9 <= i < 18 ==>
      LETTER_NAMES[i] in HID_LETTERS_J_R && HID_LETTERS_J_R[LETTER_NAMES[i]] == HidKey(KEYBOARD_PAGE, 0x04 + i)
  {
  }

  lemma LettersSZListed()
    ensures forall i :: 18 <= i < |LETTER_NAMES| ==>
      LETTER_NAMES[i] in HID_LETTERS_S_Z && HID_LETTERS_S_Z[LETTER_NAMES[i]] == HidKey(KEYBOARD_PAGE, 0x04 + i)
  {
  }

  lemma LettersAIInTable()
    ensures forall i :: 0 <= i < 9 ==>
      LETTER_NAMES[i] in STRING_TO_HID_KEY && STRING_TO_HID_KEY[LETTER_NAMES[i]] == HidKey(KEYBOARD_PAGE, 0x04 + i)
  {
    LettersAIListed();
    forall i | 0 <= i < 9
      ensures LETTER_NAMES[i] in STRING_TO_HID_KEY && STRING_TO_HID_KEY[LETTER_NAMES[i]] == HidKey(KEYBOARD_PAGE, 0x04 + i)
    {
      LettersAISurvive(LETTER_NAMES[i]);
    }
  }

  lemma LettersJRInTable()
    ensures forall i :: 9 <= i < 18 ==>
      LETTER_NAMES[i] in STRING_TO_HID_KEY && STRING_TO_HID_KEY[LETTER_NAMES[i]] == HidKey(KEYBOARD_PAGE, 0x04 + i)
  {
    LettersJRListed();
    forall i | 9 <= i < 18
      ensures LETTER_NAMES[i] in STRING_TO_HID_KEY && STRING_TO_HID_KEY[LETTER_NAMES[i]] == HidKey(KEYBOARD_PAGE, 0x04 + i)
    {
      LettersJRSurvive(LETTER_NAMES[i]);
    }
  }

  lemma LettersSZInTable()
    ensures forall i :: 18 <= i < |LETTER_NAMES| ==>
      LETTER_NAMES[i] in STRING_TO_HID_KEY && STRING_TO_HID_KEY[LETTER_NAMES[i]] == HidKey(KEYBOARD_PAGE, 0x04 + i)
  {
    LettersSZListed();
    forall i | 18 <= i < |LETTER_NAMES|
      ensures LETTER_NAMES[i] in STRING_TO_HID_KEY && STRING_TO_HID_KEY[LETTER_NAMES[i]] == HidKey(KEYBOARD_PAGE, 0x04 + i)
    {
      LettersSZSurvive(LETTER_NAMES[i]);
    }
  }

  /** KEY_A..KEY_Z name the Keyboard-page usages 0x04..0x1D, in alphabetical order. */
  lemma LetterKeys()
    ensures forall i :: 0 <= i < |LETTER_NAMES| ==>
      LETTER_NAMES[i] in STRING_TO_HID_KEY && STRING_TO_HID_KEY[LETTER_NAMES[i]] == HidKey(KEYBOARD_PAGE, 0x04 + i)
  {
    LettersAIInTable();
    LettersJRInTable();
    LettersSZInTable();
  }

  const NUMBER_ROW_NAMES: seq<string> :=
    ["KEY_1", "KEY_2", "KEY_3", "KEY_4", "KEY_5", "KEY_6", "KEY_7", "KEY_8", "KEY_9", "KEY_0"]

  lemma NumberRowListed()
    ensures forall i :: 0 <= i < |NUMBER_ROW_NAMES| ==>
      NUMBER_ROW_NAMES[i] in HID_NUMBER_ROW && HID_NUMBER_ROW[NUMBER_ROW_NAMES[i]] == HidKey(KEYBOARD_PAGE, 0x1E + i)
  {
  }

  /** KEY_1..KEY_9 then KEY_0 name the consecutive Keyboard-page usages 0x1E..0x27. */
  lemma NumberRowKeys()
    ensures forall i :: 0 <= i < |NUMBER_ROW_NAMES| ==>
      NUMBER_ROW_NAMES[i] in STRING_TO_HID_KEY && STRING_TO_HID_KEY[NUMBER_ROW_NAMES[i]] == HidKey(KEYBOARD_PAGE, 0x1E + i)
  {
    NumberRowListed();
    forall i | 0 <= i < |NUMBER_ROW_NAMES|
      ensures NUMBER_ROW_NAMES[i] in STRING_TO_HID_KEY && STRING_TO_HID_KEY[NUMBER_ROW_NAMES[i]] == HidKey(KEYBOARD_PAGE, 0x1E + i)
    {
      NumberRowSurvive(NUMBER_ROW_NAMES[i]);
    }
  }

  const FUNCTION_KEY_NAMES: seq<string> :=
    ["F1", "F2", "F3", "F4", "F5", "F6", "F7", "F8", "F9", "F10", "F11", "F12"]

  lemma FunctionKeysListed()
    ensures forall i :: 0 <= i < |FUNCTION_KEY_NAMES| ==>
      FUNCTION_KEY_NAMES[i] in HID_FUNCTION_KEYS && HID_FUNCTION_KEYS[FUNCTION_KEY_NAMES[i]] == HidKey(KEYBOARD_PAGE, 0x3A + i)
  {
  }

  /** F1..F12 name the consecutive Keyboard-page usages 0x3A..0x45. */
  lemma FunctionKeyNames()
    ensures forall i :: 0 <= i < |FUNCTION_KEY_NAMES| ==>
      FUNCTION_KEY_NAMES[i] in STRING_TO_HID_KEY && STRING_TO_HID_KEY[FUNCTION_KEY_NAMES[i]] == HidKey(KEYBOARD_PAGE, 0x3A + i)
  {
    FunctionKeysListed();
    forall i | 0 <= i < |FUNCTION_KEY_NAMES|
      ensures FUNCTION_KEY_NAMES[i] in STRING_TO_HID_KEY && STRING_TO_HID_KEY[FUNCTION_KEY_NAMES[i]] == HidKey(KEYBOARD_PAGE, 0x3A + i)
    {
      FunctionKeysSurvive(FUNCTION_KEY_NAMES[i]);
    }
  }

  const MODIFIER_NAMES: seq<string> :=
    ["LEFT_CTRL", "LEFT_SHIFT", "LEFT_ALT", "LEFT_GUI", "RIGHT_CTRL", "RIGHT_SHIFT", "RIGHT_ALT", "RIGHT_GUI"]

  lemma ModifiersListed()
    ensures forall i :: 0 <= i < |MODIFIER_NAMES| ==>
      MODIFIER_NAMES[i] in HID_MODIFIERS
      && HID_MODIFIERS[MODIFIER_NAMES[i]] == HidKey(KEYBOARD_PAGE, HidParser.MODIFIER_CODES[i])
  {
  }

  /**
   * The modifier names agree with the report decoder: the name for bit `i`
   * of a keyboard report's modifier byte is the key the decoder reports
   * for that bit.
   */
  lemma ModifierNamesMatchDecoder()
    ensures forall i :: 0 <= i < |MODIFIER_NAMES| ==>
      MODIFIER_NAMES[i] in STRING_TO_HID_KEY
      && STRING_TO_HID_KEY[MODIFIER_NAMES[i]] == HidKey(KEYBOARD_PAGE, HidParser.MODIFIER_CODES[i])
  {
    ModifiersListed();
    forall i | 0 <= i < |MODIFIER_NAMES|
      ensures MODIFIER_NAMES[i] in STRING_TO_HID_KEY
        && STRING_TO_HID_KEY[MODIFIER_NAMES[i]] == HidKey(KEYBOARD_PAGE, HidParser.MODIFIER_CODES[i])
    {
      ModifiersSurvive(MODIFIER_NAMES[i]);
    }
  }

  lemma EjectIsConsumerKey()
    ensures "EJECT" in HID_CONSUMER && HID_CONSUMER["EJECT"] == HidParser.EJECT_KEY
  {
  }

  lemma FnStateIsVendorKey()
    ensures "FN_STATE" in HID_VENDOR && HID_VENDOR["FN_STATE"] == HidParser.FN_KEY
  {
  }

  /** EJECT and FN_STATE name the keys the decoder reports for the Eject key and the Fn state. */
  lemma SpecialNamesMatchDecoder()
    ensures "EJECT" in STRING_TO_HID_KEY && STRING_TO_HID_KEY["EJECT"] == HidParser.EJECT_KEY
    ensures "FN_STATE" in STRING_TO_HID_KEY && STRING_TO_HID_KEY["FN_STATE"] == HidParser.FN_KEY
  {
    EjectIsConsumerKey();
    ConsumerSurvive("EJECT");
    FnStateIsVendorKey();
    VendorSurvive("FN_STATE");
  }

  /** Every name of `m` stands for the key combination spelt by the name itself. */
  predicate NamesOwnCombo(m: map<string, Action>)
  {
    forall name :: name in m ==> m[name] == ActionExecutor.KeyCombo(name)
  }

  /** Joining tables whose names stand for their own combinations keeps that so. */
  lemma UnionNamesOwnCombo(a: map<string, Action>, b: map<string, Action>)
    requires NamesOwnCombo(a) && NamesOwnCombo(b)
    ensures NamesOwnCombo(a + b)
  {
    forall x | x in a + b ensures (a + b)[x] == ActionExecutor.KeyCombo(x)
    {
      if x !in b {
        assert x in a;
      }
    }
  }

  lemma ShortcutsOwnCombos()
    ensures NamesOwnCombo(COMBO_SHORTCUTS)
  {
  }

  lemma MediaOwnCombos()
    ensures NamesOwnCombo(COMBO_MEDIA)
  {
  }

  lemma LettersAIOwnCombos()
    ensures NamesOwnCombo(COMBO_LETTERS_A_I)
  {
  }

  lemma LettersJROwnCombos()
    ensures NamesOwnCombo(COMBO_LETTERS_J_R)
  {
  }

  lemma LettersSZOwnCombos()
    ensures NamesOwnCombo(COMBO_LETTERS_S_Z)
  {
  }

  lemma DigitsOwnCombos()
    ensures NamesOwnCombo(COMBO_DIGITS)
  {
  }

  lemma ControlsOwnCombos()
    ensures NamesOwnCombo(COMBO_CONTROLS)
  {
  }

  lemma F1F6OwnCombos()
    ensures NamesOwnCombo(COMBO_F1_F6)
  {
  }

  lemma F7F12OwnCombos()
    ensures NamesOwnCombo(COMBO_F7_F12)
  {
  }

  lemma ArrowsOwnCombos()
    ensures NamesOwnCombo(COMBO_ARROWS)
  {
  }

  /**
   * Every action `STRING_TO_ACTION` holds is the key combination its own
   * name spells, so looking a name up there gives what parsing it as a
   * combination would.
   */
  lemma ActionsAreOwnCombos()
    ensures NamesOwnCombo(STRING_TO_ACTION)
  {
    ShortcutsOwnCombos();
    var m := COMBO_SHORTCUTS;
    MediaOwnCombos();
    UnionNamesOwnCombo(m, COMBO_MEDIA);
    m := m + COMBO_MEDIA;
    LettersAIOwnCombos();
    UnionNamesOwnCombo(m, COMBO_LETTERS_A_I);
    m := m + COMBO_LETTERS_A_I;
    LettersJROwnCombos();
    UnionNamesOwnCombo(m, COMBO_LETTERS_J_R);
    m := m + COMBO_LETTERS_J_R;
    LettersSZOwnCombos();
    UnionNamesOwnCombo(m, COMBO_LETTERS_S_Z);
    m := m + COMBO_LETTERS_S_Z;
    DigitsOwnCombos();
    UnionNamesOwnCombo(m, COMBO_DIGITS);
    m := m + COMBO_DIGITS;
    ControlsOwnCombos();
    UnionNamesOwnCombo(m, COMBO_CONTROLS);
    m := m + COMBO_CONTROLS;
    F1F6OwnCombos();
    UnionNamesOwnCombo(m, COMBO_F1_F6);
    m := m + COMBO_F1_F6;
    F7F12OwnCombos();
    UnionNamesOwnCombo(m, COMBO_F7_F12);
    m := m + COMBO_F7_F12;
    ArrowsOwnCombos();
    UnionNamesOwnCombo(m, COMBO_ARROWS);
  }
}
