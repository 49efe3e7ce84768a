# Apple A1314 keyboard remapper: a verified model of its core

The daemon makes an Apple A1314 aluminium keyboard usable on Windows. It turns
the keyboard's raw HID input reports into key events, and looks each key press
up in a user-written mapping file. There are four tables, selected by whether
Fn and Eject are held. It then carries out the bound action: a synthesized key
chord, a program launch or a WM_APPCOMMAND message.

This project models the four pieces of that pipeline that contain logic, and
proves what each one promises.

- **`HidParser`** (`hid_parser.dfy`) decodes reports.
  - `Snapshot` is a pure function giving the set of keys a report shows held,
    per report ID:
    - 0x01 is a keyboard report;
    - 0x02 and 0x03 are Consumer-page reports;
    - 0x05 and 0x11 are Apple vendor reports;
    - any other ID is a one-shot "momentary" press.
  - `Decoder` is a class whose field `prev` holds the previous snapshot.
  - Its `Decode` method emits a release for every key that is no longer held
    and a press for every newly held key. It then stores the new snapshot.
  - The order of keys within the releases, and within the presses, comes from
    a hash set in the original. It is left open: contracts state each group as
    a set, each key named once.
- **`KeyMapper`** (`key_mapper.dfy`) is the rule engine.
  - The mapping-file parser is pure: `ParseLine`, `SplitLhs`, `ParseAction`
    and `Load`.
  - `LoadLines` is the loading loop that files rules into four tables.
  - The `KeyMapper` class holds the tables and the two modifier flags.
  - Its `HandleHidEvent` returns the action a press triggers instead of
    carrying it out.
- **`VariableMaps`** (`variable_maps.dfy`) holds the two constant dictionaries
  as map displays, each the union of several smaller displays:
  - key name → HID key;
  - action name → action.
  The original fills each dictionary with one run of insertions; the action
  dictionary's comments divide its run into two groups (named combinations
  and single keys). The model cuts both into more, smaller displays, such as
  the letters in three parts, so that each one can be checked on its own.
- **`ActionExecutor`** (`action_executor.dfy`) covers actions and their plans.
  - `Action`, and `ParseKey`, which maps a key name to a Windows virtual-key
    code and gives 0 for unknown names.
  - `SendKeyCombo` holds the loops that turn a `+`-separated combination into
    the down/up inputs `SendInput` would receive.
  - `AppCommandLParam` gives the lParam of WM_APPCOMMAND.
- **`Pipeline`** (`pipeline.dfy`) joins the decoder to the mapper. The
  window procedure does the same, handing each report's events to the mapper
  in order.

Supporting modules:

- `Wrappers` defines `Option`.
- `HidKeys` defines the integer widths and `HidKey`, which is shared by every
  module.
- `Strings` covers the parts of Rust's `str` the parsers use:
  - `trim` with Unicode's White_Space set;
  - `split`, `strip_prefix`, `find` and `rfind`;
  - ASCII `to_uppercase`;
  - `parse::<u32>`.

## Model

| member | source | states |
|---|---|---|
| HidParser.ModifierKeys | src/hid_parser.rs:33-51 | The page-0x07 modifier keys whose bits are set in byte 1, bit b naming code 0xE0 + b. No ensures of its own: `CollectModifiers` proves the bit loop computes it and `ModifierKeysByBit` states it bit by bit |
| HidParser.SlotKeys | src/hid_parser.rs:53-60 | The page-0x07 keys in bytes 3 onward, skipping NO_KEY (0) and ERROR_ROLLOVER (1). No ensures of its own: `CollectSlots` proves the slot loop computes it and `KeyboardSnapshotKeys` states which bytes are held |
| HidParser.Snapshot | src/hid_parser.rs:29-123 | The keys a report of at least 2 bytes shows held, per report ID: 0x01 needs 8 bytes, 0x02/0x03 need 3, 0x05 and 0x11 are the vendor reports, and any other ID holds nothing. Characterised by `ReadReport`, `KeyboardSnapshotKeys`, `ShortOrUnknownSnapshotIsEmpty`, `VendorSnapshot` and `ConsumerSnapshot` |
| HidParser.DiffEvents | src/hid_parser.rs:132-152 | With a previous set, one release per key of prev − cur, then one press per key of cur − prev; on the first report one press per key of cur; order within each group left open. `Diff` is proved to meet it and `DiffKeys`, `DiffOrder` and `FirstReportPressesAll` state its consequences |
| HidParser.ReportEvents | src/hid_parser.rs:111-152 | The momentary press, if any, followed by `DiffEvents` against the snapshot. `Decoder.Decode` is proved to return events meeting it, and `StatefulReportEvents` and `UnknownReportReleasesAll` state its two cases |
| HidParser.LittleEndian | src/hid_parser.rs:71 | The low byte of the result is the first byte and the high byte is the second (`from_le_bytes`, also at line 115) |
| HidParser.Momentary | src/hid_parser.rs:111-122 | An unknown-ID report of at least 4 bytes with a nonzero byte 3 carries exactly one press, of (bytes 1-2 little-endian, byte 3). Every other report carries none |
| HidParser.CollectModifiers | src/hid_parser.rs:46-51 | The bit loop collects exactly the modifier keys whose bits are set |
| HidParser.CollectSlots | src/hid_parser.rs:55-60 | The slot loop collects the key of every byte from 3 to the end that is neither NO_KEY nor ERROR_ROLLOVER |
| HidParser.ReadReport | src/hid_parser.rs:25-123 | The match on the report ID yields the report's snapshot and its momentary press |
| HidParser.EventsFor | src/hid_parser.rs:134-151 | One diff loop emits each key of `keys - excluded` exactly once, all with the given value |
| HidParser.Diff | src/hid_parser.rs:132-152 | Releases of prev − cur, then presses of cur − prev; presses of every key on the first report |
| HidParser.ModifierKeysByBit | src/hid_parser.rs:35-51 | Modifier bit b of byte 1 stands for key (0x07, 0xE0 + b) |
| HidParser.KeyboardSnapshotKeys | src/hid_parser.rs:31-60 | In a keyboard report of 8 or more bytes, every byte from 3 on that is not 0 or 1 is held, and only page-0x07 keys are held |
| HidParser.ShortOrUnknownSnapshotIsEmpty | src/hid_parser.rs:29-123 | Keyboard reports under 8 bytes, consumer reports under 3 bytes and unknown IDs hold nothing |
| HidParser.VendorSnapshot | src/hid_parser.rs:85-109 | 0x05 holds Fn iff bit 0x01 is set; 0x11 holds Fn iff 0x10 and Eject iff 0x08; nothing else is held |
| HidParser.ConsumerSnapshot | src/hid_parser.rs:69-81 | A consumer report holds exactly (0x0C, bytes 1-2 little-endian) when that usage is nonzero, otherwise nothing |
| HidParser.DiffKeys | src/hid_parser.rs:132-146 | With a previous set: an event is a release iff its key is in prev − cur, a press iff in cur − prev; keys in both produce nothing |
| HidParser.DiffOrder | src/hid_parser.rs:132-146 | No key is named twice, and every release comes before every press |
| HidParser.FirstReportPressesAll | src/hid_parser.rs:147-152 | On the first report every held key gets one press and nothing is released |
| HidParser.RepeatedReportIsSilent | src/hid_parser.rs:132-155 | Decoding the same stateful report twice in a row yields nothing the second time |
| HidParser.UnknownReportReleasesAll | src/hid_parser.rs:111-138 | An unknown report's momentary press comes first, then every held key is released |
| HidParser.ShiftAReport | src/hid_parser.rs:31-60 | Shift+A as a keyboard report holds exactly left shift and A |
| HidParser.MomentaryReport | src/hid_parser.rs:111-122 | A concrete unknown-ID report presses its key once and holds nothing |
| HidParser.FnReportHoldsFn | src/hid_parser.rs:92-105 | The report [0x11, 0x10] holds exactly Fn and presses nothing momentarily |
| HidParser.AReportHoldsA | src/hid_parser.rs:31-60 | The keyboard report with A in slot 3 holds exactly A |
| HidParser.StatefulReportEvents | src/hid_parser.rs:132-146 | A report without a momentary press gives the releases of prev − snapshot followed by the presses of snapshot − prev |
| HidParser.KeyReportReleasesFn | src/hid_parser.rs:132-155 | As written: after the Fn report, the A report releases Fn and then presses A |
| HidParser.ReleasesOnlyOwnKeys | src/hid_parser.rs:125-155 | With one held set per report ID, a report releases only keys that an earlier report of the same ID held |
| HidParser.KeyReportKeepsFn | src/hid_parser.rs:125-155 | With one held set per report ID, the A report after the Fn report only presses A |
| HidParser.Decoder.constructor | src/hid_parser.rs:10 | There is no previous set before the first report |
| HidParser.Decoder.Decode | src/hid_parser.rs:14-157 | A report under 2 bytes gives nothing and keeps the state. Any other report gives its momentary press then the diff, and stores exactly its snapshot |
| HidParser.ReportDecoder.constructor | src/hid_parser.rs:10 | Corrected decoder: no held set for any report ID yet |
| HidParser.ReportDecoder.Decode | src/hid_parser.rs:125-155 | Corrected decoder: diffs each report against the last snapshot of its own ID and stores the snapshot under that ID |
| KeyMapper.LayerOf | src/key_mapper.rs:129-137 | Eject and Fn together pick the Eject+Fn table, Eject alone the Eject table, Fn alone the Fn table, neither the normal table; the same priority is used at lines 169-177. `LayersAreDistinct` proves the four choices distinct |
| KeyMapper.Table | src/key_mapper.rs:169-177 | The table a layer selects. `Insert`, `FileRule` and `Respond` state what is read and written through it |
| KeyMapper.Lines | src/key_mapper.rs:60 | The text split at each `\n`, as `lines()` does up to the `\r` and final-line differences under "## Left out". `OneLineFile` and `RuleLineIsOneLine` pin it on newline-free text |
| KeyMapper.ParseLines | src/key_mapper.rs:60-127 | One parse per line, in file order: entry i is `ParseLine` of line i |
| KeyMapper.Rules | src/key_mapper.rs:60-127 | The rules the lines yield, in file order, at most one per line. `RulesAreFound` proves it holds every line's rule and nothing else; `LastLineWins` and `UnruledLineKeyIsUnmapped` state what the tables built from it hold, line by line |
| KeyMapper.File | src/key_mapper.rs:129-137 | A line's rule, if any, inserted into its layer's table. `FileRule` proves the source's four-way `if` equal to it and `LoadStep` ties it to `BuildMaps` |
| KeyMapper.BuildMaps | src/key_mapper.rs:54-140 | The four tables the rules fill, in order, a later rule for the same table and key replacing an earlier one. Characterised by `LastRuleWins`, `UnruledKeyIsUnmapped` and `NoRulesNoMappings`; `LoadLines` proves the loading loop computes it |
| KeyMapper.Load | src/key_mapper.rs:54-140 | The tables a file's text loads into. `KeyMapper.LoadMappingFile` assigns them; `CommentsOnlyFileIsEmpty`, `OneRuleFile` and `SingleRuleFile` pin it on whole files |
| KeyMapper.ModifierKeysAgree | src/key_mapper.rs:30-34 | The mapper's Eject and Fn keys are the decoder's and the dictionary's EJECT and FN_STATE |
| KeyMapper.LayersAreDistinct | src/key_mapper.rs:129-137 | Each (eject, fn) combination selects its own table |
| KeyMapper.Insert | src/key_mapper.rs:129-137 | Filing a rule sets the key in its own table and leaves the other three unchanged |
| KeyMapper.StripModifier | src/key_mapper.rs:75-85 | The prefix flag is true iff the text starts with the prefix; without it the text is unchanged |
| KeyMapper.SplitLhs | src/key_mapper.rs:75-85 | The Eject flag is true iff the text starts with `EJECT+`; without either prefix the key name is the text |
| KeyMapper.StripModifierRoundTrip | src/key_mapper.rs:75-85 | Trimmed text behind a prefix is recovered exactly, and text without it is left alone |
| KeyMapper.LhsRoundTrip | src/key_mapper.rs:75-85 | Any combination of `EJECT+` and `FN+` in front of a trimmed, `+`-free key name is read back as those flags and that name |
| KeyMapper.FnBeforeEjectIsOneName | src/key_mapper.rs:75-85 | `FN+EJECT+x` is not read as both modifiers: only FN is stripped and `EJECT+x` is left as the key name |
| KeyMapper.ParseAction | src/key_mapper.rs:96-127 | A combination is the text itself. A Run action's path runs from `RUN("` to the last `")`. An AppCommand needs `APPCOMMAND(` and no `RUN("`. A `RUN("` with no later `")` is not a Run |
| KeyMapper.RunRoundTrip | src/key_mapper.rs:97-100 | `RUN("p")` is read as Run(p), whatever p holds |
| KeyMapper.AppCommandRoundTrip | src/key_mapper.rs:104-108 | `APPCOMMAND(n)` with n in decimal is read as AppCommand(n) for every 32-bit n |
| KeyMapper.AppCommandParses | src/key_mapper.rs:104-116 | For `APPCOMMAND(s)t` with no `)` in s: AppCommand(n) when `parse::<u32>()` reads n from s, whatever t is; otherwise the whole text is a key combination |
| KeyMapper.AppCommandUnclosed | src/key_mapper.rs:104-116 | `APPCOMMAND(` with no `)` after it is a key combination of the whole text |
| KeyMapper.AppCommandSignAndZeros | src/key_mapper.rs:104-108 | A leading `+` or leading zeros before the command number, and any text after the `)`, still give AppCommand(n) |
| KeyMapper.AppCommandNotNumber | src/key_mapper.rs:104-116 | `APPCOMMAND(abc)` is a key combination of the whole text |
| KeyMapper.PlainRhsIsCombo | src/key_mapper.rs:118-126 | A right-hand side starting with neither prefix is KeyCombo of itself, whether or not the dictionary knows it |
| KeyMapper.RuleOf | src/key_mapper.rs:87-94 | A line makes a rule exactly when its key name is in the key dictionary |
| KeyMapper.ParseLine | src/key_mapper.rs:61-127 | Only a line that is neither blank nor a comment can make a rule |
| KeyMapper.LineParts | src/key_mapper.rs:61-73 | `lhs = rhs`, with trimmed sides and no other `=`, is the rule of those two sides |
| KeyMapper.LineSplits | src/key_mapper.rs:61-73 | Such a line is already trimmed and splits at its `=` into the two padded sides |
| KeyMapper.EmptyRhsIsKept | src/key_mapper.rs:66-70 | `lhs =` with nothing after the `=` still has two parts, and its rule sends the empty combination |
| KeyMapper.LineRoundTrip | src/key_mapper.rs:61-127 | A rule written out from flags, a known key name and a right-hand side is read back as that rule |
| KeyMapper.RuleRoundTrip | src/key_mapper.rs:75-94 | A left-hand side written out from flags and a known key name makes that key's rule in the table of those flags |
| KeyMapper.LhsTextShape | src/key_mapper.rs:61-73 | A written-out left-hand side is trimmed, holds no `=` and does not start with `#` |
| KeyMapper.OneEqualsSignPerRule | src/key_mapper.rs:66-70 | A line with no `=` or with more than one makes no rule |
| KeyMapper.SkippedLinesYieldNothing | src/key_mapper.rs:61-64 | Blank and comment lines make no rule |
| KeyMapper.LoadStep | src/key_mapper.rs:60-138 | Reading one more line files its rule, if any, into the tables built so far |
| KeyMapper.LastRuleWins | src/key_mapper.rs:129-137 | A rule no later rule overrides for the same table and key is in force after loading |
| KeyMapper.RulesAreFound | src/key_mapper.rs:60-138 | Every rule a line yields is among the rules loaded, and every rule loaded is one a line yields |
| KeyMapper.LastLineWins | src/key_mapper.rs:60-138 | The rule of a line that no later line overrides, for the same table and key, is in force once the file is loaded: a later line replaces an earlier one |
| KeyMapper.UnruledLineKeyIsUnmapped | src/key_mapper.rs:60-138 | A key that no line's rule names for a table is absent from that table once the file is loaded |
| KeyMapper.UnruledKeyIsUnmapped | src/key_mapper.rs:129-137 | A key that no rule of a table names is absent from that table |
| KeyMapper.NoRulesNoMappings | src/key_mapper.rs:54-138 | Lines that make no rule load four empty tables |
| KeyMapper.CommentsOnlyFileIsEmpty | src/key_mapper.rs:60-64 | A file of blank lines and comments loads four empty tables |
| KeyMapper.Track | src/key_mapper.rs:151-161 | An Fn event sets Fn held iff its value is nonzero, and an Eject event does the same for Eject. Every other key leaves both flags alone |
| KeyMapper.Respond | src/key_mapper.rs:163-181 | A key triggers an action iff it is not Fn or Eject, the value is nonzero and the selected table has it. The action is that table's entry |
| KeyMapper.FnFollowsItsLastEvent | src/key_mapper.rs:151-155 | After any run of events, Fn is held iff its latest event was a press |
| KeyMapper.EjectFollowsItsLastEvent | src/key_mapper.rs:157-161 | After any run of events, Eject is held iff its latest event was a press |
| KeyMapper.ReleasesTriggerNothing | src/key_mapper.rs:163-166 | A run of releases triggers no action |
| KeyMapper.FnChord | src/key_mapper.rs:168-181 | Fn down then a key down fires the key's Fn-table binding |
| KeyMapper.ReleasedFnChord | src/key_mapper.rs:168-181 | Fn down, Fn up, then a key down fires the key's plain binding |
| KeyMapper.FileRule | src/key_mapper.rs:129-137 | The `if` chain files a rule exactly as `Insert` does |
| KeyMapper.LoadLines | src/key_mapper.rs:54-140 | The loading loop builds exactly the tables of the file's rules, filed in order |
| KeyMapper.OneLineFile | src/key_mapper.rs:60-140 | A one-line file loads what its line yields |
| KeyMapper.RuleLineIsOneLine | src/key_mapper.rs:60 | A rule written out from newline-free parts is a single line |
| KeyMapper.OneRuleFile | src/key_mapper.rs:60-140 | A one-line file whose line is a rule loads that rule alone |
| KeyMapper.SingleRuleFile | src/key_mapper.rs:54-140 | A file of one written-out rule loads exactly that rule into four otherwise empty tables |
| KeyMapper.KeyMapper.constructor | src/key_mapper.rs:37-43 | Empty tables and neither modifier held |
| KeyMapper.KeyMapper.LoadMappingFile | src/key_mapper.rs:45-140 | A file that was read replaces all four tables with exactly its rules. A failed read changes nothing. The flags are untouched either way |
| KeyMapper.KeyMapper.HandleHidEvent | src/key_mapper.rs:148-182 | The flags change as `Track` says, the tables never change, and the result is what `Respond` gives for the old flags |
| VariableMaps.KeyTableWellFormed | src/variable_maps.rs:8-100 | No two key names map to the same HID key, and every key is on page 0x07, 0x0C or 0xFF00 |
| VariableMaps.LetterKeys | src/variable_maps.rs:11-36 | KEY_A … KEY_Z map to (0x07, 0x04 … 0x1D) in alphabetical order |
| VariableMaps.LettersAIInTable | src/variable_maps.rs:11-19 | KEY_A … KEY_I map to (0x07, 0x04 … 0x0C) |
| VariableMaps.LettersJRInTable | src/variable_maps.rs:20-28 | KEY_J … KEY_R map to (0x07, 0x0D … 0x15) |
| VariableMaps.LettersSZInTable | src/variable_maps.rs:29-36 | KEY_S … KEY_Z map to (0x07, 0x16 … 0x1D) |
| VariableMaps.NumberRowKeys | src/variable_maps.rs:39-48 | KEY_1 … KEY_9 map to (0x07, 0x1E … 0x26) and KEY_0 to (0x07, 0x27) |
| VariableMaps.FunctionKeyNames | src/variable_maps.rs:58-69 | F1 … F12 map to (0x07, 0x3A … 0x45) |
| VariableMaps.ModifierNamesMatchDecoder | src/variable_maps.rs:78-85 | LEFT_CTRL … RIGHT_GUI map to the decoder's modifier keys, bit by bit in the same order |
| VariableMaps.EjectIsConsumerKey | src/variable_maps.rs:92 | EJECT is the Consumer-page key the decoder reports for Eject |
| VariableMaps.FnStateIsVendorKey | src/variable_maps.rs:99 | FN_STATE is the vendor-page key the decoder reports for Fn |
| VariableMaps.SpecialNamesMatchDecoder | src/variable_maps.rs:88-99 | EJECT and FN_STATE map to the decoder's Eject and Fn keys |
| VariableMaps.ActionsAreOwnCombos | src/variable_maps.rs:106-188 | Every action name s maps to KeyCombo(s), so a dictionary lookup always equals the fallback |
| VariableMaps.ShortcutsOwnCombos | src/variable_maps.rs:109-117 | The shortcut names map to combinations of themselves |
| VariableMaps.MediaOwnCombos | src/variable_maps.rs:118-125 | The media names map to combinations of themselves |
| VariableMaps.LettersAIOwnCombos | src/variable_maps.rs:129-137 | A … I map to combinations of themselves |
| VariableMaps.LettersJROwnCombos | src/variable_maps.rs:138-146 | J … R map to combinations of themselves |
| VariableMaps.LettersSZOwnCombos | src/variable_maps.rs:147-154 | S … Z map to combinations of themselves |
| VariableMaps.DigitsOwnCombos | src/variable_maps.rs:155-164 | 0 … 9 map to combinations of themselves |
| VariableMaps.ControlsOwnCombos | src/variable_maps.rs:165-169 | ENTER … SPACE map to combinations of themselves |
| VariableMaps.F1F6OwnCombos | src/variable_maps.rs:170-175 | F1 … F6 map to combinations of themselves |
| VariableMaps.F7F12OwnCombos | src/variable_maps.rs:176-181 | F7 … F12 map to combinations of themselves |
| VariableMaps.ArrowsOwnCombos | src/variable_maps.rs:182-185 | The arrow names map to combinations of themselves |
| ActionExecutor.ParseKey | src/action_executor.rs:76-178 | The virtual-key code of a key name, 0 for a name the match does not list. Characterised by `ParseKeyZeroIffUnlisted` and the `*AliasesAgree` lemmas |
| ActionExecutor.SendKey | src/action_executor.rs:181-199 | One key-down or key-up input for the code, none for the invalid code 0. `SendKeysSnoc` and `UnknownMainKeyIsDropped` state its effect on a plan |
| ActionExecutor.SendKeys | src/action_executor.rs:58-60 | `SendKey` for each code in turn. `SendKeysSnoc` states the one-more-key step; `PressModifiers` and `ReleaseModifiers` prove the two modifier loops compute it |
| ActionExecutor.Reverse | src/action_executor.rs:70 | The modifiers in reverse order, as `iter().rev()` visits them: same length, element i is element n − 1 − i |
| ActionExecutor.ModifierKey | src/action_executor.rs:47-51 | The modifier code an upper-cased part names (CTRL/CONTROL, SHIFT, ALT/MENU, WIN/GUI), or none. `NoMainKeyIffAllModifiers` and `ClassifyParts` state its use |
| ActionExecutor.ComboParts | src/action_executor.rs:41 | The trimmed `+`-separated parts: always at least one, even for the empty text |
| ActionExecutor.Modifiers | src/action_executor.rs:46-54 | The modifier codes of the parts in order of appearance, each one of the four modifier codes; `ClassifyParts` proves the classification loop computes it |
| ActionExecutor.MainKey | src/action_executor.rs:46-54 | The code of the last non-modifier part, or none. Characterised by `MainKeyIsLastNonModifier` and `NoMainKeyIffAllModifiers` |
| ActionExecutor.Tap | src/action_executor.rs:62-67 | The main key's down then up input, or nothing without a main key; `UnknownMainKeyIsDropped` shows a main key of 0 taps nothing |
| ActionExecutor.KeyPlan | src/action_executor.rs:56-73 | Modifiers down in order, the main key tapped, modifiers up in reverse. `SendPlan` proves the three sending steps compute it and `PlanIsBalanced` proves it releases what it presses |
| ActionExecutor.ComboInputs | src/action_executor.rs:40-73 | The inputs a combination text hands to `SendInput`. `SendKeyCombo` returns exactly these, and `ComboIsBalanced`, `MainKeyIsLastNonModifier` and `NoMainKeyIffAllModifiers` characterise them |
| ActionExecutor.ParseKeyZeroIffUnlisted | src/action_executor.rs:76-178 | `parse_key` gives 0 exactly for the names it does not list, so every listed name has a nonzero code |
| ActionExecutor.NavigationAliasesAgree | src/action_executor.rs:87-94 | PAGE_UP/PAGEUP, PAGE_DOWN/PAGEDOWN and each arrow's two names give the same code |
| ActionExecutor.MediaAliasesAgree | src/action_executor.rs:111-119 | The two names of each media key give the same code |
| ActionExecutor.OperatorAliasesAgree | src/action_executor.rs:162-163 | MINUS, `-` and `_` agree, and so do EQUALS, `=` and `+` |
| ActionExecutor.BracketAliasesAgree | src/action_executor.rs:164-165 | The four names of each bracket agree |
| ActionExecutor.QuoteAliasesAgree | src/action_executor.rs:166-168 | The names of the semicolon, apostrophe and grave keys agree |
| ActionExecutor.SeparatorAliasesAgree | src/action_executor.rs:169-172 | The names of the backslash, comma, period and slash keys agree |
| ActionExecutor.SendKeysSnoc | src/action_executor.rs:58-60 | Sending one more key appends its input to the inputs sent so far |
| ActionExecutor.ClassifyParts | src/action_executor.rs:43-54 | The classification loop collects the modifiers in order and keeps the last non-modifier part as the main key |
| ActionExecutor.PressModifiers | src/action_executor.rs:58-60 | Each modifier goes down, in order |
| ActionExecutor.ReleaseModifiers | src/action_executor.rs:70-72 | Each modifier comes up, last pressed first |
| ActionExecutor.SendPlan | src/action_executor.rs:56-73 | Modifiers down, main key down and up, modifiers up in reverse |
| ActionExecutor.SendKeyCombo | src/action_executor.rs:40-74 | `send_key_combo` hands `SendInput` exactly the plan of its parts |
| ActionExecutor.ReplayAppend | src/action_executor.rs:56-73 | Replaying two runs of inputs is replaying the first, then the second from where the first left off |
| ActionExecutor.ReplayPresses | src/action_executor.rs:58-60 | Pressing nonzero keys in order stacks them on what is held |
| ActionExecutor.ReplayReleases | src/action_executor.rs:70-72 | Releasing them in reverse order unwinds exactly them |
| ActionExecutor.PlanIsBalanced | src/action_executor.rs:56-73 | Every key released was the last one pressed and still held, and nothing is left held at the end |
| ActionExecutor.ComboIsBalanced | src/action_executor.rs:40-74 | Every key combination's inputs are properly nested and leave no key held |
| ActionExecutor.NoMainKeyIffAllModifiers | src/action_executor.rs:44-54 | There is no main key iff every part names a modifier |
| ActionExecutor.MainKeyIsLastNonModifier | src/action_executor.rs:52 | The main key is `parse_key` of the upper-cased last non-modifier part; earlier ones are discarded |
| ActionExecutor.UnknownMainKeyIsDropped | src/action_executor.rs:174-184 | A main key `parse_key` does not know sends nothing: only the modifiers go down and up |
| ActionExecutor.AppCommandLParam | src/action_executor.rs:206-209 | The lParam's high word is the command and its low word is 0; it fits in 48 bits |
| Strings.Trim | src/key_mapper.rs:61 | `trim`: no longer than the text and neither starting nor ending with whitespace; `TrimIdempotent` and `TrimKeepsOthers` show only whitespace is removed. Also used at key_mapper.rs lines 66, 76 and 82 |
| Strings.StripPrefix | src/key_mapper.rs:75 | `strip_prefix`: a result iff the text starts with the prefix, and the text is the prefix followed by the result. Also used at key_mapper.rs lines 81, 97 and 103 |
| Strings.ToUpper | src/action_executor.rs:47 | Same length, each character upper-cased; ASCII letters only, as "## Left out" records |
| Strings.Split | src/key_mapper.rs:66 | The pieces hold no separator and join back into the text |
| Strings.SplitJoin | src/key_mapper.rs:66 | Splitting a join of separator-free pieces gives back the pieces |
| Strings.SplitCount | src/key_mapper.rs:66-67 | The number of parts is one more than the number of `=` |
| Strings.TrimIdempotent | src/key_mapper.rs:61 | Trimming twice is trimming once |
| Strings.TrimKeepsOthers | src/key_mapper.rs:61 | Trimming removes only whitespace: every other character keeps its count |
| Strings.RFind | src/key_mapper.rs:98 | `rfind` finds an occurrence, and no occurrence starts later |
| Strings.FindChar | src/key_mapper.rs:105 | `find` gives the first occurrence, or nothing iff the character is absent |
| Strings.ParseU32 | src/key_mapper.rs:107 | `parse::<u32>()` succeeds iff the text, after one optional `+`, is a non-empty run of digits whose value is below 2^32; the result is that value |
| Strings.UnsignedDigits | src/key_mapper.rs:107 | The digits read are the text itself or the text minus one leading `+` |
| Strings.LeadingZero | src/key_mapper.rs:107 | A leading zero does not change a run of digits' value |
| Strings.ParseSignAndZeros | src/key_mapper.rs:107 | `+` or `00` before a number's decimal spelling parses to the same number |
| Strings.ParseDecimal | src/key_mapper.rs:107 | Parsing the decimal spelling of a 32-bit number gives the number back |
| Pipeline.SameFnKey | src/key_mapper.rs:31-34 | The decoder's Fn key is the mapper's, and A is not Eject |
| Pipeline.FnReportPressesFn | src/hid_parser.rs:85-105 | On a fresh decoder the Fn report presses Fn only |
| Pipeline.FnChordAsWritten | src/main.rs:211-220 | As written: the Fn report then the A report, handed to the mapper, fire A's plain binding and never its Fn binding |
| Pipeline.FnChordCorrected | src/main.rs:211-220 | With one held set per report ID, the same reports fire A's Fn binding |
| Pipeline.FnThenAAsWritten | src/hid_parser.rs:125-155 | As written: the shared-state decoder gives Fn down, Fn up, A down |
| Pipeline.FnThenACorrected | src/hid_parser.rs:125-155 | The per-ID decoder gives Fn down, A down |

## Left out

- `src/main.rs` is not part of this model. It holds the window, the message loop, raw-input registration and report slicing. Only its hand-off of each report's events to the mapper, in order, is modelled, by `Pipeline`.
- Calls into Windows are not modelled: `SendInput`, `CreateProcessW`/`CloseHandle`, `GetForegroundWindow`/`PostMessageW` and the UTF-16 conversion. `execute_action` on a `Run` or `AppCommand` is left out for the same reason. The model stops at the inputs and the lParam those calls would receive.
- `HandleHidEvent` returns the triggered action instead of executing it.
- File reading is not modelled. The loader takes the file's text, or `None` when reading failed.
- Logging is not modelled: `log::`, `println!` and `eprintln!`.
- The mutex around the previous key set, and its poisoning recovery, are replaced by a field the decoder owns.
- Iteration order of a hash set is left open. Releases and presses are each stated as a set, with every key named once.
- Strings.ToUpper: upper-cases only ASCII letters, where Rust's `to_uppercase` maps all of Unicode. Some non-ASCII letters upper-case to ASCII there: `ı` becomes `I` and `ſ` becomes `S`, and some ligatures become several ASCII letters. So a part such as `ſhift` is the Shift modifier in the original, but in the model it is an unknown main key and sends nothing.
- ActionExecutor.AppCommandLParam: assumes a 64-bit `isize`. On a 32-bit target, `(app_cmd as isize) << 16` keeps only the low 16 bits of the command, shifted into the high word, and a command of 0x8000 or more gives a negative lParam. The model gives the unwrapped value.
- KeyMapper.Lines: Rust's `lines()` also splits at `\r\n` and drops a final empty line. Here text is split at `\n` only. Every line is trimmed and blank lines are skipped, so the rules a file yields are the same.
- The length test `report.len() >= 2` in the vendor branch (src/hid_parser.rs:86) always passes after the check at line 17, so its else branch is not modelled.
- `parse_key`'s `"+"` and `"="` names are kept in the key table, but a combination part can never be `"+"`: parts are split at `+`. The loader also never passes a right-hand side containing `=`.
- The tests under `tests/` re-implement the mapper with a Shift table that `src/key_mapper.rs` does not have. They are not modelled.

## Findings

| source | as written | input that shows it | evidently intended | confidence | as-written member | corrected member |
|---|---|---|---|---|---|---|
| src/hid_parser.rs:125-155 | One held set is shared by all report IDs, and every report replaces it with its own snapshot. A keyboard report therefore releases Fn, which the vendor report still holds | The report [0x11, 0x10] (Fn held), then [0x01, 0, 0, 0x04, 0, 0, 0, 0] (A pressed) | A key stays held until a report of its own kind says otherwise, so `FN+KEY_A` rules fire | medium, not executed | HidParser.KeyReportReleasesFn, Pipeline.FnChordAsWritten, Pipeline.FnThenAAsWritten | HidParser.ReportDecoder.Decode, HidParser.KeyReportKeepsFn, HidParser.ReleasesOnlyOwnKeys, Pipeline.FnChordCorrected, Pipeline.FnThenACorrected |

Details of the finding:

- As written, the two reports decode to Fn down, Fn up, A down.
- The mapper has already cleared its Fn flag when A arrives, so the Fn layer is never used for keys of the main keyboard.
- `HidParser.ReportDecoder` keeps one held set per report ID. With it, the same reports decode to Fn down, A down, and the Fn binding fires.
