/**
 * The actions a mapping rule can bind, and the pure part of carrying them
 * out: which virtual-key events a key-combination spec turns into before
 * they reach `SendInput`, and how a WM_APPCOMMAND command is packed into
 * the message's lParam. The calls into Windows themselves are not modelled.
 */
module ActionExecutor {
  import opened Wrappers
  import opened HidKeys
  import opened Strings

  /** What a rule's right-hand side asks for. */
  datatype Action =
    | KeyCombo(combo: string)    // synthesize a key chord such as "CTRL+SHIFT+ESC"
    | Run(path: string)          // launch a program
    | AppCommand(command: u32)   // post WM_APPCOMMAND to the foreground window

  /** Windows virtual-key codes (`VIRTUAL_KEY` is 16 bits wide). */
  const VK_BACK: u16 := 0x08
  const VK_TAB: u16 := 0x09
  const VK_RETURN: u16 := 0x0D
  const VK_SHIFT: u16 := 0x10
  const VK_CONTROL: u16 := 0x11
  const VK_MENU: u16 := 0x12
  const VK_ESCAPE: u16 := 0x1B
  const VK_SPACE: u16 := 0x20
  const VK_PRIOR: u16 := 0x21
  const VK_NEXT: u16 := 0x22
  const VK_END: u16 := 0x23
  const VK_HOME: u16 := 0x24
  const VK_LEFT: u16 := 0x25
  const VK_UP: u16 := 0x26
  const VK_RIGHT: u16 := 0x27
  const VK_DOWN: u16 := 0x28
  const VK_DELETE: u16 := 0x2E
  const VK_LWIN: u16 := 0x5B
  const VK_F1: u16 := 0x70
  const VK_F12: u16 := 0x7B

  /** A code `parse_key` gives a name it lists: never the invalid key 0. */
  type ListedKey = vk: u16 | vk != 0 witness VK_BACK

  /** The arms of `parse_key`'s match, in its groups: key name to virtual-key code. */
  const SPECIAL_KEYS: map<string, ListedKey> := map[
    "ESC" := VK_ESCAPE, "ESCAPE" := VK_ESCAPE,
    "TAB" := VK_TAB,
    "ENTER" := VK_RETURN, "RETURN" := VK_RETURN,
    "BACKSPACE" := VK_BACK,
    "SPACE" := VK_SPACE,
    "DELETE" := VK_DELETE
  ]
  const NAVIGATION_KEYS: map<string, ListedKey> := map[
    "HOME" := VK_HOME,
    "END" := VK_END,
    "PAGE_UP" := VK_PRIOR, "PAGEUP" := VK_PRIOR,
    "PAGE_DOWN" := VK_NEXT, "PAGEDOWN" := VK_NEXT,
    "LEFT_ARROW" := VK_LEFT, "LEFT" := VK_LEFT,
    "RIGHT_ARROW" := VK_RIGHT, "RIGHT" := VK_RIGHT,
    "UP_ARROW" := VK_UP, "UP" := VK_UP,
    "DOWN_ARROW" := VK_DOWN, "DOWN" := VK_DOWN
  ]
  const FUNCTION_KEYS: map<string, ListedKey> := map[
    "F1" := 0x70, "F2" := 0x71, "F3" := 0x72, "F4" := 0x73,
    "F5" := 0x74, "F6" := 0x75, "F7" := 0x76, "F8" := 0x77,
    "F9" := 0x78, "F10" := 0x79, "F11" := 0x7A, "F12" := 0x7B
  ]
  const MEDIA_KEYS: map<string, ListedKey> := map[
    "BRIGHTNESS_DOWN" := 0xE6,
    "BRIGHTNESS_UP" := 0xE7,
    "MEDIA_NEXT" := 0xB0, "NEXT_TRACK" := 0xB0,
    "MEDIA_PREV" := 0xB1, "PREV_TRACK" := 0xB1,
    "MEDIA_PLAY_PAUSE" := 0xB3, "PLAY_PAUSE" := 0xB3,
    "MEDIA_STOP" := 0xB2,
    "MUTE" := 0xAD, "VOLUME_MUTE" := 0xAD,
    "VOLUME_DOWN" := 0xAE,
    "VOLUME_UP" := 0xAF
  ]
  const NUMBER_KEYS: map<string, ListedKey> := map[
    "0" := 0x30, "1" := 0x31, "2" := 0x32, "3" := 0x33, "4" := 0x34,
    "5" := 0x35, "6" := 0x36, "7" := 0x37, "8" := 0x38, "9" := 0x39
  ]
  const LETTER_KEYS: map<string, ListedKey> := map[
    "A" := 0x41, "B" := 0x42, "C" := 0x43, "D" := 0x44, "E" := 0x45,
    "F" := 0x46, "G" := 0x47, "H" := 0x48, "I" := 0x49, "J" := 0x4A,
    "K" := 0x4B, "L" := 0x4C, "M" := 0x4D, "N" := 0x4E, "O" := 0x4F,
    "P" := 0x50, "Q" := 0x51, "R" := 0x52, "S" := 0x53, "T" := 0x54,
    "U" := 0x55, "V" := 0x56, "W" := 0x57, "X" := 0x58, "Y" := 0x59,
    "Z" := 0x5A
  ]
  /** US-layout OEM keys: minus and equals ... */
  const OPERATOR_KEYS: map<string, ListedKey> := map[
    "MINUS" := 0xBD, "-" := 0xBD, "_" := 0xBD,
    "EQUALS" := 0xBB, "=" := 0xBB, "+" := 0xBB
  ]
  /** ... the brackets ... */
  const BRACKET_KEYS: map<string, ListedKey> := map[
    "LEFT_BRACKET" := 0xDB, "LBRACKET" := 0xDB, "[" := 0xDB, "{" := 0xDB,
    "RIGHT_BRACKET" := 0xDD, "RBRACKET" := 0xDD, "]" := 0xDD, "}" := 0xDD
  ]
  /** ... semicolon, apostrophe and grave ... */
  const QUOTE_KEYS: map<string, ListedKey> := map[
    "SEMICOLON" := 0xBA, ";" := 0xBA, ":" := 0xBA,
    "APOSTROPHE" := 0xDE, "'" := 0xDE, "\"" := 0xDE,
    "GRAVE" := 0xC0, "`" := 0xC0, "~" := 0xC0
  ]
  /** ... and backslash, comma, period and slash. */
  const SEPARATOR_KEYS: map<string, ListedKey> := map[
    "BACKSLASH" := 0xDC, "\\" := 0xDC, "|" := 0xDC,
    "COMMA" := 0xBC, "," := 0xBC, "<" := 0xBC,
    "PERIOD" := 0xBE, "." := 0xBE, ">" := 0xBE,
    "SLASH" := 0xBF, "/" := 0xBF, "?" := 0xBF
  ]
  /** `key` is one of the names `parse_key` lists. */
  predicate Listed(key: string)
  {
    || key in SPECIAL_KEYS || key in NAVIGATION_KEYS || key in FUNCTION_KEYS
    || key in MEDIA_KEYS || key in NUMBER_KEYS || key in LETTER_KEYS
    || key in OPERATOR_KEYS || key in BRACKET_KEYS || key in QUOTE_KEYS || key in SEPARATOR_KEYS
  }

  /**
   * `parse_key`: the virtual-key code of a key name, trying the groups in
   * the order its match lists them; 0 for a name it does not list.
   */
  function ParseKey(key: string): u16
  {
    if key in SPECIAL_KEYS then SPECIAL_KEYS[key]
    else if key in NAVIGATION_KEYS then NAVIGATION_KEYS[key]
    else if key in FUNCTION_KEYS then FUNCTION_KEYS[key]
    else if key in MEDIA_KEYS then MEDIA_KEYS[key]
    else if key in NUMBER_KEYS then NUMBER_KEYS[key]
    else if key in LETTER_KEYS then LETTER_KEYS[key]
    else if key in OPERATOR_KEYS then OPERATOR_KEYS[key]
    else if key in BRACKET_KEYS then BRACKET_KEYS[key]
    else if key in QUOTE_KEYS then QUOTE_KEYS[key]
    else if key in SEPARATOR_KEYS then SEPARATOR_KEYS[key]
    else 0
  }

  /** `parse_key` gives 0 exactly for the names it does not list. */
  lemma ParseKeyZeroIffUnlisted(key: string)
    ensures ParseKey(key) == 0 <==> !Listed(key)
  {
  }

  /** Names that `parse_key` lists side by side denote the same key: special and navigation keys. */
  lemma NavigationAliasesAgree()
    ensures SPECIAL_KEYS["ESC"] == SPECIAL_KEYS["ESCAPE"] == VK_ESCAPE
    ensures SPECIAL_KEYS["ENTER"] == SPECIAL_KEYS["RETURN"] == VK_RETURN
    ensures NAVIGATION_KEYS["PAGE_UP"] == NAVIGATION_KEYS["PAGEUP"] == VK_PRIOR
    ensures NAVIGATION_KEYS["PAGE_DOWN"] == NAVIGATION_KEYS["PAGEDOWN"] == VK_NEXT
    ensures NAVIGATION_KEYS["LEFT_ARROW"] == NAVIGATION_KEYS["LEFT"] == VK_LEFT
    ensures NAVIGATION_KEYS["RIGHT_ARROW"] == NAVIGATION_KEYS["RIGHT"] == VK_RIGHT
    ensures NAVIGATION_KEYS["UP_ARROW"] == NAVIGATION_KEYS["UP"] == VK_UP
    ensures NAVIGATION_KEYS["DOWN_ARROW"] == NAVIGATION_KEYS["DOWN"] == VK_DOWN
  {
  }

  /** Names that `parse_key` lists side by side denote the same key: media keys. */
  lemma MediaAliasesAgree()
    ensures MEDIA_KEYS["MEDIA_NEXT"] == MEDIA_KEYS["NEXT_TRACK"] == 0xB0
    ensures MEDIA_KEYS["MEDIA_PREV"] == MEDIA_KEYS["PREV_TRACK"] == 0xB1
    ensures MEDIA_KEYS["MEDIA_PLAY_PAUSE"] == MEDIA_KEYS["PLAY_PAUSE"] == 0xB3
    ensures MEDIA_KEYS["MUTE"] == MEDIA_KEYS["VOLUME_MUTE"] == 0xAD
  {
  }

  /** Names that `parse_key` lists side by side denote the same key: minus and equals on a US layout ... */
  lemma OperatorAliasesAgree()
    ensures OPERATOR_KEYS["MINUS"] == OPERATOR_KEYS["-"] == OPERATOR_KEYS["_"] == 0xBD
    ensures OPERATOR_KEYS["EQUALS"] == OPERATOR_KEYS["="] == OPERATOR_KEYS["+"] == 0xBB
  {
  }

  /** ... the brackets and braces ... */
  lemma BracketAliasesAgree()
    ensures BRACKET_KEYS["LEFT_BRACKET"] == BRACKET_KEYS["LBRACKET"] == BRACKET_KEYS["["] == BRACKET_KEYS["{"] == 0xDB
    ensures BRACKET_KEYS["RIGHT_BRACKET"] == BRACKET_KEYS["RBRACKET"] == BRACKET_KEYS["]"] == BRACKET_KEYS["}"] == 0xDD
  {
  }

  /** ... semicolon, apostrophe and grave ... */
  lemma QuoteAliasesAgree()
    ensures QUOTE_KEYS["SEMICOLON"] == QUOTE_KEYS[";"] == QUOTE_KEYS[":"] == 0xBA
    ensures QUOTE_KEYS["APOSTROPHE"] == QUOTE_KEYS["'"] == QUOTE_KEYS["\""] == 0xDE
    ensures QUOTE_KEYS["GRAVE"] == QUOTE_KEYS["`"] == QUOTE_KEYS["~"] == 0xC0
  {
  }

  /** ... and backslash, comma, period and slash. */
  lemma SeparatorAliasesAgree()
    ensures SEPARATOR_KEYS["BACKSLASH"] == SEPARATOR_KEYS["\\"] == SEPARATOR_KEYS["|"] == 0xDC
    ensures SEPARATOR_KEYS["COMMA"] == SEPARATOR_KEYS[","] == SEPARATOR_KEYS["<"] == 0xBC
    ensures SEPARATOR_KEYS["PERIOD"] == SEPARATOR_KEYS["."] == SEPARATOR_KEYS[">"] == 0xBE
    ensures SEPARATOR_KEYS["SLASH"] == SEPARATOR_KEYS["/"] == SEPARATOR_KEYS["?"] == 0xBF
  {
  }

  /** One keyboard input as `SendInput` receives it: a key going down or up. */
  datatype KeyInput = KeyInput(vk: u16, up: bool)

  /** `send_key`: the input it hands to `SendInput`; nothing for the invalid key 0. */
  function SendKey(vk: u16, up: bool): seq<KeyInput>
  {
    if vk == 0 then [] else [KeyInput(vk, up)]
  }

  /** `send_key` applied to each code in turn, all down or all up. */
  function SendKeys(vks: seq<u16>, up: bool): seq<KeyInput>
  {
    if vks == [] then [] else SendKeys(vks[..|vks| - 1], up) + SendKey(vks[|vks| - 1], up)
  }

  lemma SendKeysSnoc(vks: seq<u16>, vk: u16, up: bool)
    ensures SendKeys(vks + [vk], up) == SendKeys(vks, up) + SendKey(vk, up)
  {
    assert (vks + [vk])[..|vks|] == vks;
  }

  /** The elements of `s` in reverse order. */
  function Reverse<T>(s: seq<T>): (r: seq<T>)
    ensures |r| == |s|
    ensures forall i :: 0 <= i < |s| ==> r[i] == s[|s| - 1 - i]
  {
    if s == [] then [] else Reverse(s[1..]) + [s[0]]
  }

  /** The modifier arms of `send_key_combo`'s match. */
  const MODIFIER_NAMES: map<string, u16> := map[
    "CTRL" := VK_CONTROL, "CONTROL" := VK_CONTROL,
    "SHIFT" := VK_SHIFT,
    "ALT" := VK_MENU, "MENU" := VK_MENU,
    "WIN" := VK_LWIN, "GUI" := VK_LWIN
  ]

  /** The modifier a combination part names, compared case-insensitively. */
  function ModifierKey(part: string): Option<u16>
  {
    var name := ToUpper(part);
    if name in MODIFIER_NAMES then Some(MODIFIER_NAMES[name]) else None
  }

  /** The `+`-separated, trimmed parts of a key-combination spec. */
  function ComboParts(combo: string): (parts: seq<string>)
    ensures |parts| >= 1
  {
    var pieces := Split(combo, '+');
    seq(|pieces|, i requires 0 <= i < |pieces| => Trim(pieces[i]))
  }

  /** The modifier codes of the parts, in order of appearance. */
  function Modifiers(parts: seq<string>): (vks: seq<u16>)
    ensures forall i :: 0 <= i < |vks| ==> vks[i] in {VK_CONTROL, VK_SHIFT, VK_MENU, VK_LWIN}
  {
    if parts == [] then []
    else
      var last := parts[|parts| - 1];
      Modifiers(parts[..|parts| - 1]) + (match ModifierKey(last) case Some(vk) => [vk] case None => [])
  }

  /** The main key: the code of the last part that is not a modifier, if there is one. */
  function MainKey(parts: seq<string>): Option<u16>
  {
    if parts == [] then None
    else
      var last := parts[|parts| - 1];
      if ModifierKey(last).None? then Some(ParseKey(ToUpper(last))) else MainKey(parts[..|parts| - 1])
  }

  /**
   * The inputs for modifiers `mods` and an optional main key: the
   * modifiers down in order, the main key down and up, the modifiers up
   * in reverse order.
   */
  function KeyPlan(mods: seq<u16>, main: Option<u16>): seq<KeyInput>
  {
    SendKeys(mods, false) + Tap(main) + SendKeys(Reverse(mods), true)
  }

  /** The main key's down and up inputs, or nothing when there is no main key. */
  function Tap(main: Option<u16>): seq<KeyInput>
  {
    match main
    case None => []
    case Some(vk) => SendKey(vk, false) + SendKey(vk, true)
  }

  /** What `send_key_combo` would hand to `SendInput`, in order. */
  function ComboInputs(combo: string): seq<KeyInput>
  {
    var parts := ComboParts(combo);
    KeyPlan(Modifiers(parts), MainKey(parts))
  }

  /** The classification loop of `send_key_combo`: modifiers in order, and the last other part. */
  method ClassifyParts(parts: seq<string>) returns (modifiers: seq<u16>, mainKey: Option<u16>)
    ensures modifiers == Modifiers(parts) && mainKey == MainKey(parts)
  {
    modifiers, mainKey := [], None;
    for i := 0 to |parts|
      invariant modifiers == Modifiers(parts[..i])
      invariant mainKey == MainKey(parts[..i])
    {
      assert parts[..i + 1][..i] == parts[..i];
      var m := ModifierKey(parts[i]);
      if m.Some? {
        modifiers := modifiers + [m.value];
      } else {
        mainKey := Some(ParseKey(ToUpper(parts[i])));
      }
    }
    assert parts[..|parts|] == parts;
  }

  /** The first sending loop of `send_key_combo`: each modifier down, in order. */
  method PressModifiers(modifiers: seq<u16>) returns (inputs: seq<KeyInput>)
    ensures inputs == SendKeys(modifiers, false)
  {
    inputs := [];
    for i := 0 to |modifiers|
      invariant inputs == SendKeys(modifiers[..i], false)
    {
      assert modifiers[..i + 1] == modifiers[..i] + [modifiers[i]];
      SendKeysSnoc(modifiers[..i], modifiers[i], false);
      inputs := inputs + SendKey(modifiers[i], false);
    }
    assert modifiers[..|modifiers|] == modifiers;
  }

  /** The last sending loop of `send_key_combo`: each modifier up, last pressed first. */
  method ReleaseModifiers(modifiers: seq<u16>) returns (inputs: seq<KeyInput>)
    ensures inputs == SendKeys(Reverse(modifiers), true)
  {
    inputs := [];
    var j := |modifiers|;
    while j > 0
      invariant 0 <= j <= |modifiers|
      invariant inputs == SendKeys(Reverse(modifiers[j..]), true)
    {
      j := j - 1;
      assert modifiers[j..][1..] == modifiers[j + 1..];
      assert Reverse(modifiers[j..]) == Reverse(modifiers[j + 1..]) + [modifiers[j]];
      SendKeysSnoc(Reverse(modifiers[j + 1..]), modifiers[j], true);
      inputs := inputs + SendKey(modifiers[j], true);
    }
    assert modifiers[0..] == modifiers;
  }

  /** The three sending steps of `send_key_combo`: press the modifiers, tap the main key, release the modifiers. */
  method SendPlan(modifiers: seq<u16>, mainKey: Option<u16>) returns (inputs: seq<KeyInput>)
    ensures inputs == KeyPlan(modifiers, mainKey)
  {
    var pressed := PressModifiers(modifiers);
    var released := ReleaseModifiers(modifiers);
    inputs := pressed + Tap(mainKey) + released;
  }

  /**
   * `send_key_combo`: splits the spec on `+`, trims each part, sorts the
   * parts into modifiers and a main key, and sends the plan.
   */
  method SendKeyCombo(combo: string) returns (inputs: seq<KeyInput>)
    ensures inputs == ComboInputs(combo)
  {
    var parts := ComboParts(combo);
    var modifiers, mainKey := ClassifyParts(parts);
    inputs := SendPlan(modifiers, mainKey);
  }

  /**
   * Replays inputs against the stack of keys currently held: a down pushes
   * its key, an up must release the most recently pressed key still held.
   * None when an up does not match.
   */
  function Replay(inputs: seq<KeyInput>, held: seq<u16>): Option<seq<u16>>
  {
    if inputs == [] then Some(held)
    else if !inputs[0].up then Replay(inputs[1..], held + [inputs[0].vk])
    else if held != [] && held[|held| - 1] == inputs[0].vk then Replay(inputs[1..], held[..|held| - 1])
    else None
  }

  lemma {:induction false} ReplayAppend(a: seq<KeyInput>, b: seq<KeyInput>, held: seq<u16>)
    ensures Replay(a + b, held) == match Replay(a, held) case None => None case Some(h) => Replay(b, h)
  {
    if a != [] {
      assert (a + b)[1..] == a[1..] + b;
      if !a[0].up {
        ReplayAppend(a[1..], b, held + [a[0].vk]);
      } else if held != [] && held[|held| - 1] == a[0].vk {
        ReplayAppend(a[1..], b, held[..|held| - 1]);
      }
    } else {
      assert a + b == b;
    }
  }

  predicate NoInvalidKey(vks: seq<u16>)
  {
    forall i :: 0 <= i < |vks| ==> vks[i] != 0
  }

  /** Pressing nonzero keys in order stacks them on what is held. */
  lemma {:induction false} ReplayPresses(vks: seq<u16>, held: seq<u16>)
    requires NoInvalidKey(vks)
    ensures Replay(SendKeys(vks, false), held) == Some(held + vks)
  {
    if vks != [] {
      var init := vks[..|vks| - 1];
      var last := vks[|vks| - 1];
      assert NoInvalidKey(init) by {
        forall i | 0 <= i < |init| ensures init[i] != 0 { assert init[i] == vks[i]; }
      }
      ReplayPresses(init, held);
      var one := [KeyInput(last, false)];
      assert SendKey(last, false) == one;
      ReplayAppend(SendKeys(init, false), one, held);
      assert one[1..] == [];
      assert Replay(one, held + init) == Replay([], held + init + [last]);
      assert held + init + [last] == held + vks;
    } else {
      assert held + vks == held;
    }
  }

  /** Releasing the stacked keys in reverse order unwinds exactly them. */
  lemma {:induction false} ReplayReleases(vks: seq<u16>, held: seq<u16>)
    requires NoInvalidKey(vks)
    ensures Replay(SendKeys(Reverse(vks), true), held + vks) == Some(held)
  {
    if vks != [] {
      var r := Reverse(vks);
      assert r == Reverse(vks[1..]) + [vks[0]];
      assert r[..|r| - 1] == Reverse(vks[1..]);
      assert SendKeys(r, true) == SendKeys(Reverse(vks[1..]), true) + SendKey(vks[0], true);
      assert held + [vks[0]] + vks[1..] == held + vks;
      ReplayReleases(vks[1..], held + [vks[0]]);
      ReplayAppend(SendKeys(Reverse(vks[1..]), true), SendKey(vks[0], true), held + vks);
      var one := [KeyInput(vks[0], true)];
      assert one[1..] == [];
      assert (held + [vks[0]])[..|held|] == held;
      assert Replay(one, held + [vks[0]]) == Replay([], held);
    } else {
      assert held + vks == held;
    }
  }

  /**
   * Any plan over nonzero modifiers is properly nested: every key released
   * was pressed, the modifiers come up in the reverse of the order they went
   * down, and nothing is left held at the end.
   */
  lemma PlanIsBalanced(mods: seq<u16>, main: Option<u16>)
    requires NoInvalidKey(mods)
    ensures Replay(KeyPlan(mods, main), []) == Some([])
  {
    var tap := Tap(main);
    ReplayPresses(mods, []);
    assert [] + mods == mods;
    if main.Some? && main.value != 0 {
      var v := main.value;
      var up := [KeyInput(v, true)];
      assert tap == [KeyInput(v, false)] + up;
      assert Replay(tap, mods) == Replay(up, mods + [v]);
      assert up[1..] == [];
      assert (mods + [v])[..|mods|] == mods;
      assert Replay(up, mods + [v]) == Replay([], mods);
    } else {
      assert tap == [];
    }
    assert Replay(tap, mods) == Some(mods);
    ReplayAppend(SendKeys(mods, false), tap, []);
    ReplayAppend(SendKeys(mods, false) + tap, SendKeys(Reverse(mods), true), []);
    ReplayReleases(mods, []);
  }

  /** Every key combination's inputs are properly nested and leave nothing held. */
  lemma ComboIsBalanced(combo: string)
    ensures Replay(ComboInputs(combo), []) == Some([])
  {
    var mods := Modifiers(ComboParts(combo));
    assert NoInvalidKey(mods);
    PlanIsBalanced(mods, MainKey(ComboParts(combo)));
  }

  /** There is no main key exactly when every part names a modifier. */
  lemma {:induction false} NoMainKeyIffAllModifiers(parts: seq<string>)
    ensures MainKey(parts).None? <==> forall i :: 0 <= i < |parts| ==> ModifierKey(parts[i]).Some?
  {
    if parts != [] {
      var init := parts[..|parts| - 1];
      NoMainKeyIffAllModifiers(init);
      assert forall i :: 0 <= i < |init| ==> init[i] == parts[i];
    }
  }

  /**
   * The main key is the last part `j` that names no modifier: the parts
   * after it are all modifiers, and earlier non-modifier parts are discarded.
   */
  lemma {:induction false} MainKeyIsLastNonModifier(parts: seq<string>, j: nat)
    requires j < |parts| && ModifierKey(parts[j]).None?
    requires forall i :: j < i < |parts| ==> ModifierKey(parts[i]).Some?
    ensures MainKey(parts) == Some(ParseKey(ToUpper(parts[j])))
  {
    if j < |parts| - 1 {
      var init := parts[..|parts| - 1];
      assert ModifierKey(parts[|parts| - 1]).Some?;
      assert forall i :: 0 <= i < |init| ==> init[i] == parts[i];
      MainKeyIsLastNonModifier(init, j);
    }
  }

  /** A main key that `parse_key` does not know sends nothing: only the modifiers go down and up. */
  lemma UnknownMainKeyIsDropped(mods: seq<u16>)
    ensures KeyPlan(mods, Some(0)) == KeyPlan(mods, None)
  {
  }

  /**
   * The lParam of WM_APPCOMMAND: the command shifted into the high word,
   * the low word (the input device, here a keyboard) left 0. The shift is
   * done on a 64-bit `isize`, where a 32-bit command cannot overflow.
   */
  function AppCommandLParam(command: u32): (lparam: int)
    ensures 0 <= lparam < 0x1_0000_0000_0000
    ensures lparam / 0x1_0000 == command && lparam % 0x1_0000 == 0
  {
    command * 0x1_0000
  }
}
