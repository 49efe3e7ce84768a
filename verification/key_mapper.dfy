/**
 * The mapping engine: parsing a mapping file into four rule tables (plain,
 * Fn, Eject and Eject+Fn), tracking whether Fn and Eject are held, and
 * choosing the action a key press triggers.
 */
module KeyMapper {
  import opened Wrappers
  import opened HidKeys
  import opened Strings
  import HidParser
  import VariableMaps
  import ActionExecutor

  type Action = ActionExecutor.Action

  /** The keys that act as layer modifiers rather than as triggers. */
  const EJECT_HID_KEY: HidKey := HidKey(CONSUMER_PAGE, 0x00B8)
  const FN_STATE_HID_KEY: HidKey := HidKey(APPLE_VENDOR_PAGE, 0x0003)

  /** The mapper's modifier keys are the ones the decoder reports and the dictionary names EJECT and FN_STATE. */
  lemma ModifierKeysAgree()
    ensures EJECT_HID_KEY == HidParser.EJECT_KEY && FN_STATE_HID_KEY == HidParser.FN_KEY
    ensures "EJECT" in VariableMaps.STRING_TO_HID_KEY && VariableMaps.STRING_TO_HID_KEY["EJECT"] == EJECT_HID_KEY
    ensures "FN_STATE" in VariableMaps.STRING_TO_HID_KEY && VariableMaps.STRING_TO_HID_KEY["FN_STATE"] == FN_STATE_HID_KEY
  {
    VariableMaps.SpecialNamesMatchDecoder();
  }

  // ---------------------------------------------------------------------
  // Rule tables

  /** Which table a rule is filed under, and which table a press is looked up in. */
  datatype Layer = Normal | FnLayer | EjectLayer | EjectFnLayer

  /** Eject and Fn together select the Eject+Fn table; Eject wins over Fn alone. */
  function LayerOf(eject: bool, fn: bool): Layer
  {
    if eject && fn then EjectFnLayer
    else if eject then EjectLayer
    else if fn then FnLayer
    else Normal
  }

  /** Each combination of the two modifiers has a table of its own. */
  lemma LayersAreDistinct(e1: bool, f1: bool, e2: bool, f2: bool)
    ensures LayerOf(e1, f1) == LayerOf(e2, f2) <==> e1 == e2 && f1 == f2
  {
  }

  datatype KeyMaps = KeyMaps(
    normal: map<HidKey, Action>,
    fnMap: map<HidKey, Action>,
    ejectMap: map<HidKey, Action>,
    ejectFnMap: map<HidKey, Action>)

  const EMPTY_MAPS: KeyMaps := KeyMaps(map[], map[], map[], map[])

  function Table(maps: KeyMaps, layer: Layer): map<HidKey, Action>
  {
    match layer
    case Normal => maps.normal
    case FnLayer => maps.fnMap
    case EjectLayer => maps.ejectMap
    case EjectFnLayer => maps.ejectFnMap
  }

  /** Files one rule: its table gains (or overrides) the key, the other tables stay as they were. */
  function Insert(maps: KeyMaps, layer: Layer, key: HidKey, action: Action): (r: KeyMaps)
    ensures Table(r, layer) == Table(maps, layer)[key := action]
    ensures forall l :: l != layer ==> Table(r, l) == Table(maps, l)
  {
    match layer
    case Normal => maps.(normal := maps.normal[key := action])
    case FnLayer => maps.(fnMap := maps.fnMap[key := action])
    case EjectLayer => maps.(ejectMap := maps.ejectMap[key := action])
    case EjectFnLayer => maps.(ejectFnMap := maps.ejectFnMap[key := action])
  }

  // ---------------------------------------------------------------------
  // Parsing one line

  const EJECT_PREFIX: string := "EJECT+"
  const FN_PREFIX: string := "FN+"

  /** A left-hand side taken apart: the modifier prefixes it carried and the key name left over. */
  datatype Lhs = Lhs(isEject: bool, isFn: bool, keyName: string)

  /** Strips `prefix` and trims what follows it, telling whether the prefix was there. */
  function StripModifier(s: string, prefix: string): (r: (bool, string))
    ensures r.0 <==> prefix <= s
    ensures !r.0 ==> r.1 == s
    ensures |r.1| <= |s|
  {
    match StripPrefix(s, prefix)
    case Some(after) => (true, Trim(after))
    case None => (false, s)
  }

  /** Strips an `EJECT+` prefix, then an `FN+` prefix, trimming what follows each. */
  function SplitLhs(lhs: string): (r: Lhs)
    ensures r.isEject <==> EJECT_PREFIX <= lhs
    ensures !r.isEject && !r.isFn ==> r.keyName == lhs
    ensures |r.keyName| <= |lhs|
  {
    var (isEject, rest) := StripModifier(lhs, EJECT_PREFIX);
    var (isFn, keyName) := StripModifier(rest, FN_PREFIX);
    Lhs(isEject, isFn, keyName)
  }

  /** Writes a left-hand side back out: the prefixes, then the key name. */
  function LhsText(isEject: bool, isFn: bool, keyName: string): string
  {
    (if isEject then EJECT_PREFIX else []) + (if isFn then FN_PREFIX else []) + keyName
  }

  /** Trimmed text is recovered from behind its prefix, and left alone when it does not carry the prefix. */
  lemma StripModifierRoundTrip(prefix: string, present: bool, s: string)
    requires s == [] || (!IsWhitespace(s[0]) && !IsWhitespace(s[|s| - 1]))
    requires !present ==> !(prefix <= s)
    ensures StripModifier((if present then prefix else []) + s, prefix) == (present, s)
  {
    if present {
      assert StripPrefix(prefix + s, prefix) == Some(s);
      TrimKeepsTrimmed(s);
    } else {
      assert [] + s == s;
    }
  }

  /** A key name that is trimmed and holds no `+` is recovered with its prefixes. */
  lemma LhsRoundTrip(isEject: bool, isFn: bool, keyName: string)
    requires keyName == [] || (!IsWhitespace(keyName[0]) && !IsWhitespace(keyName[|keyName| - 1]))
    requires '+' !in keyName
    ensures SplitLhs(LhsText(isEject, isFn, keyName)) == Lhs(isEject, isFn, keyName)
  {
    var rest := (if isFn then FN_PREFIX else []) + keyName;
    assert LhsText(isEject, isFn, keyName) == (if isEject then EJECT_PREFIX else []) + rest;
    assert !(FN_PREFIX <= keyName) by {
      if |keyName| >= |FN_PREFIX| { assert keyName[2] != FN_PREFIX[2]; }
    }
    assert !(EJECT_PREFIX <= rest) by {
      if isFn {
        assert rest[0] != EJECT_PREFIX[0];
      } else if |keyName| >= |EJECT_PREFIX| {
        assert rest == keyName && keyName[5] != EJECT_PREFIX[5];
      }
    }
    if isFn {
      assert rest[0] == 'F' && rest[|rest| - 1] == (if keyName == [] then '+' else keyName[|keyName| - 1]);
    }
    StripModifierRoundTrip(EJECT_PREFIX, isEject, rest);
    StripModifierRoundTrip(FN_PREFIX, isFn, keyName);
  }

  /** The two prefixes are only recognised in the order EJECT+ then FN+. */
  lemma FnBeforeEjectIsOneName(keyName: string)
    ensures SplitLhs(FN_PREFIX + EJECT_PREFIX + keyName)
      == Lhs(false, true, Trim(EJECT_PREFIX + keyName))
  {
    assert (FN_PREFIX + EJECT_PREFIX + keyName)[0] == 'F';
    assert FN_PREFIX + EJECT_PREFIX + keyName == FN_PREFIX + (EJECT_PREFIX + keyName);
  }

  const RUN_OPEN: string := "RUN(\""
  const RUN_CLOSE: string := "\")"
  const APPCOMMAND_OPEN: string := "APPCOMMAND("

  /**
   * A right-hand side as an action: `RUN("path")` up to the last `")`,
   * `APPCOMMAND(n)` up to the first `)` with `n` a 32-bit number, and
   * otherwise the text itself as a key combination. A malformed RUN or
   * APPCOMMAND also falls back to a key combination.
   */
  function ParseAction(rhs: string): (a: Action)
    ensures a.KeyCombo? ==> a.combo == rhs
    ensures a.Run? ==>
      && RUN_OPEN <= rhs
      && OccursAt(rhs, RUN_CLOSE, |RUN_OPEN| + |a.path|)
      && rhs[..|RUN_OPEN| + |a.path|] == RUN_OPEN + a.path
      && (forall k: nat :: |RUN_OPEN| + |a.path| < k ==> !OccursAt(rhs, RUN_CLOSE, k))
    ensures a.AppCommand? ==> APPCOMMAND_OPEN <= rhs && !(RUN_OPEN <= rhs)
    ensures RUN_OPEN <= rhs && !a.Run? ==> forall k: nat :: |RUN_OPEN| <= k ==> !OccursAt(rhs, RUN_CLOSE, k)
  {
    match StripPrefix(rhs, RUN_OPEN)
    case Some(rest) =>
      (match RFind(rest, RUN_CLOSE)
       case Some(end) =>
         RunCloseShifts(rhs, rest);
         ActionExecutor.Run(rest[..end])
       case None =>
         RunCloseShifts(rhs, rest);
         ActionExecutor.KeyCombo(rhs))
    case None =>
      match StripPrefix(rhs, APPCOMMAND_OPEN)
      case Some(rest) =>
        (match FindChar(rest, ')')
         case Some(end) =>
           (match ParseU32(rest[..end])
            case Some(command) => ActionExecutor.AppCommand(command)
            case None => ActionExecutor.KeyCombo(rhs))
         case None => ActionExecutor.KeyCombo(rhs))
      case None =>
        VariableMaps.ActionsAreOwnCombos();
        if rhs in VariableMaps.STRING_TO_ACTION then VariableMaps.STRING_TO_ACTION[rhs]
        else ActionExecutor.KeyCombo(rhs)
  }

  /** An occurrence in the text after `RUN("` is an occurrence in the whole, shifted by the prefix. */
  lemma RunCloseShifts(rhs: string, rest: string)
    requires rhs == RUN_OPEN + rest
    ensures forall k: nat :: |RUN_OPEN| <= k ==>
      (OccursAt(rhs, RUN_CLOSE, k) <==> OccursAt(rest, RUN_CLOSE, k - |RUN_OPEN|))
  {
    forall k: nat | |RUN_OPEN| <= k
      ensures OccursAt(rhs, RUN_CLOSE, k) <==> OccursAt(rest, RUN_CLOSE, k - |RUN_OPEN|)
    {
      var k := k - |RUN_OPEN|;
      if k + |RUN_CLOSE| <= |rest| {
        assert rhs[k + |RUN_OPEN|..k + |RUN_OPEN| + |RUN_CLOSE|] == rest[k..k + |RUN_CLOSE|];
      }
    }
  }

  /** `RUN("path")` runs exactly `path`, whatever it contains. */
  lemma RunRoundTrip(path: string)
    ensures ParseAction(RUN_OPEN + path + RUN_CLOSE) == ActionExecutor.Run(path)
  {
    var rhs := RUN_OPEN + path + RUN_CLOSE;
    var rest := path + RUN_CLOSE;
    assert rhs == RUN_OPEN + rest;
    assert StripPrefix(rhs, RUN_OPEN) == Some(rest);
    assert rest[|path|..|path| + |RUN_CLOSE|] == RUN_CLOSE;
    assert OccursAt(rest, RUN_CLOSE, |path|);
    var end := RFind(rest, RUN_CLOSE);
    assert end == Some(|path|);
    assert rest[..|path|] == path;
  }

  /** `APPCOMMAND(n)` with `n` written in decimal posts command `n`. */
  lemma AppCommandRoundTrip(command: u32)
    ensures ParseAction(APPCOMMAND_OPEN + DecimalString(command) + ")") == ActionExecutor.AppCommand(command)
  {
    var digits := DecimalString(command);
    var rhs := APPCOMMAND_OPEN + digits + ")";
    var rest := digits + ")";
    assert rhs == APPCOMMAND_OPEN + rest;
    assert rhs[0] == 'A';
    assert StripPrefix(rhs, RUN_OPEN) == None;
    assert StripPrefix(rhs, APPCOMMAND_OPEN) == Some(rest);
    assert ')' !in digits by {
      forall i | 0 <= i < |digits| ensures digits[i] != ')' { assert IsDigit(digits[i]); }
    }
    assert FindChar(rest, ')') == Some(|digits|);
    assert rest[..|digits|] == digits;
    ParseDecimal(command);
  }

  /**
   * `APPCOMMAND(s)` followed by anything: the command is what `parse::<u32>()`
   * reads from `s`, up to the first `)`; text after that `)` is ignored. When
   * `s` is not a 32-bit number the whole text is a key combination.
   */
  lemma AppCommandParses(s: string, t: string)
    requires ')' !in s
    ensures var rhs := APPCOMMAND_OPEN + s + ")" + t;
      ParseAction(rhs) == match ParseU32(s)
        case Some(n) => ActionExecutor.AppCommand(n)
        case None => ActionExecutor.KeyCombo(rhs)
  {
    var rhs := APPCOMMAND_OPEN + s + ")" + t;
    var rest := s + ")" + t;
    assert rhs == APPCOMMAND_OPEN + rest;
    assert rhs[0] == 'A';
    assert StripPrefix(rhs, RUN_OPEN) == None;
    assert StripPrefix(rhs, APPCOMMAND_OPEN) == Some(rest);
    assert rest[|s|] == ')' && rest[..|s|] == s;
    assert FindChar(rest, ')') == Some(|s|);
  }

  /** `APPCOMMAND(` with no `)` after it is a key combination of the whole text. */
  lemma AppCommandUnclosed(s: string)
    requires ')' !in s
    ensures ParseAction(APPCOMMAND_OPEN + s) == ActionExecutor.KeyCombo(APPCOMMAND_OPEN + s)
  {
    var rhs := APPCOMMAND_OPEN + s;
    assert rhs[0] == 'A';
    assert StripPrefix(rhs, RUN_OPEN) == None;
    assert StripPrefix(rhs, APPCOMMAND_OPEN) == Some(s);
  }

  /** A leading `+` or leading zeros are accepted in a command number, and text after the `)` is ignored. */
  lemma AppCommandSignAndZeros(command: u32, t: string)
    ensures ParseAction(APPCOMMAND_OPEN + ("+" + DecimalString(command)) + ")" + t) == ActionExecutor.AppCommand(command)
    ensures ParseAction(APPCOMMAND_OPEN + ("00" + DecimalString(command)) + ")" + t) == ActionExecutor.AppCommand(command)
  {
    var digits := DecimalString(command);
    ParseSignAndZeros(command);
    assert ')' !in digits by {
      forall i | 0 <= i < |digits| ensures digits[i] != ')' { assert IsDigit(digits[i]); }
    }
    assert ')' !in "+" + digits by {
      forall i | 0 <= i < |"+" + digits| ensures ("+" + digits)[i] != ')' {
        if i > 0 { assert ("+" + digits)[i] == digits[i - 1]; }
      }
    }
    assert ')' !in "00" + digits by {
      forall i | 0 <= i < |"00" + digits| ensures ("00" + digits)[i] != ')' {
        if i > 1 { assert ("00" + digits)[i] == digits[i - 2]; }
      }
    }
    AppCommandParses("+" + digits, t);
    AppCommandParses("00" + digits, t);
  }

  /** A command that is not a number makes the whole text a key combination. */
  lemma AppCommandNotNumber()
    ensures ParseAction("APPCOMMAND(abc)") == ActionExecutor.KeyCombo("APPCOMMAND(abc)")
  {
    AppCommandParses("abc", []);
    assert UnsignedDigits("abc") == "abc" && !IsDigit('a');
    assert APPCOMMAND_OPEN + "abc" + ")" + [] == "APPCOMMAND(abc)";
  }

  /** Text that starts with neither `RUN("` nor `APPCOMMAND(` is a key combination of itself. */
  lemma PlainRhsIsCombo(rhs: string)
    requires !(RUN_OPEN <= rhs) && !(APPCOMMAND_OPEN <= rhs)
    ensures ParseAction(rhs) == ActionExecutor.KeyCombo(rhs)
  {
  }

  /** A rule: the table it is filed under, the key it binds and the action it triggers. */
  datatype Rule = Rule(layer: Layer, key: HidKey, action: Action)

  /** A line is a comment when its trimmed text starts with `#`. */
  predicate IsSkipped(line: string)
  {
    var t := Trim(line);
    t == [] || t[0] == '#'
  }

  /** The rule a left-hand side makes with an action, when the key dictionary knows the key name. */
  function RuleOf(lhsText: string, action: Action): (r: Option<Rule>)
    ensures r.Some? <==> SplitLhs(lhsText).keyName in VariableMaps.STRING_TO_HID_KEY
  {
    var lhs := SplitLhs(lhsText);
    if lhs.keyName in VariableMaps.STRING_TO_HID_KEY then
      Some(Rule(LayerOf(lhs.isEject, lhs.isFn), VariableMaps.STRING_TO_HID_KEY[lhs.keyName], action))
    else None
  }

  /**
   * One line of a mapping file: blank lines and comments are skipped; a line
   * must split at `=` into exactly two parts; the left part's key name must be
   * one the key dictionary knows. Anything else yields no rule.
   */
  function ParseLine(line: string): (r: Option<Rule>)
    ensures r.Some? ==> !IsSkipped(line)
  {
    var t := Trim(line);
    if t == [] || t[0] == '#' then None
    else
      var parts := Split(t, '=');
      if |parts| != 2 then None
      else RuleOf(Trim(parts[0]), ParseAction(Trim(parts[1])))
  }

  /** A line whose trimmed text is `<left> = <right>`, with no other `=`, is that rule. */
  lemma LineParts(line: string, lhs: string, rhs: string)
    requires IsTrimmed(lhs) && lhs[0] != '#' && '=' !in lhs
    requires IsTrimmed(rhs) && '=' !in rhs
    requires line == lhs + " = " + rhs
    ensures ParseLine(line) == RuleOf(lhs, ParseAction(rhs))
  {
    LineSplits(line, lhs, rhs);
    TwoParts(line, lhs + " ", " " + rhs);
    TrimPadding(lhs);
    TrimPadding(rhs);
  }

  /** Such a line is already trimmed and splits at its `=` into the padded sides. */
  lemma LineSplits(line: string, lhs: string, rhs: string)
    requires IsTrimmed(lhs) && '=' !in lhs
    requires IsTrimmed(rhs) && '=' !in rhs
    requires line == lhs + " = " + rhs
    ensures Trim(line) == line && line[0] == lhs[0]
    ensures Split(line, '=') == [lhs + " ", " " + rhs]
  {
    assert line[0] == lhs[0] && line[|line| - 1] == rhs[|rhs| - 1];
    TrimKeepsTrimmed(line);
    var parts := [lhs + " ", " " + rhs];
    assert Join(parts, '=') == line;
    SplitJoin(parts, '=');
  }

  /** A line `<left> =` with nothing after the `=` still splits into two parts: its rule sends the empty combination. */
  lemma EmptyRhsIsKept(lhs: string)
    requires IsTrimmed(lhs) && lhs[0] != '#' && '=' !in lhs
    ensures ParseLine(lhs + " =") == RuleOf(lhs, ActionExecutor.KeyCombo([]))
  {
    EmptyRhsSplits(lhs);
    TwoParts(lhs + " =", lhs + " ", []);
    TrimPadding(lhs);
    PlainRhsIsCombo([]);
  }

  /** A trimmed line that is no comment and splits into two parts is the rule of its trimmed parts. */
  lemma TwoParts(line: string, left: string, right: string)
    requires Trim(line) == line && line != [] && line[0] != '#'
    requires Split(line, '=') == [left, right]
    ensures ParseLine(line) == RuleOf(Trim(left), ParseAction(Trim(right)))
  {
  }

  /** Such a line is already trimmed and splits into the padded left side and the empty text. */
  lemma EmptyRhsSplits(lhs: string)
    requires IsTrimmed(lhs) && '=' !in lhs
    ensures Trim(lhs + " =") == lhs + " =" && (lhs + " =")[0] == lhs[0]
    ensures Split(lhs + " =", '=') == [lhs + " ", []]
  {
    var line := lhs + " =";
    assert line[0] == lhs[0] && line[|line| - 1] == '=';
    TrimKeepsTrimmed(line);
    var parts := [lhs + " ", []];
    assert Join(parts, '=') == line;
    SplitJoin(parts, '=');
  }

  /** A rule written `<prefixes><name> = <action>` is read back as that rule. */
  lemma LineRoundTrip(isEject: bool, isFn: bool, keyName: string, rhs: string)
    requires keyName in VariableMaps.STRING_TO_HID_KEY
    requires IsTrimmed(keyName)
    requires keyName[0] != '#' && '+' !in keyName && '=' !in keyName
    requires IsTrimmed(rhs) && '=' !in rhs
    ensures ParseLine(LhsText(isEject, isFn, keyName) + " = " + rhs)
      == Some(Rule(LayerOf(isEject, isFn), VariableMaps.STRING_TO_HID_KEY[keyName], ParseAction(rhs)))
  {
    var lhs := LhsText(isEject, isFn, keyName);
    LhsTextShape(isEject, isFn, keyName);
    LineParts(lhs + " = " + rhs, lhs, rhs);
    RuleRoundTrip(isEject, isFn, keyName, ParseAction(rhs));
  }

  /** A left-hand side written out from a known key name makes that key's rule, with whatever action. */
  lemma RuleRoundTrip(isEject: bool, isFn: bool, keyName: string, action: Action)
    requires keyName in VariableMaps.STRING_TO_HID_KEY
    requires IsTrimmed(keyName) && '+' !in keyName
    ensures RuleOf(LhsText(isEject, isFn, keyName), action)
      == Some(Rule(LayerOf(isEject, isFn), VariableMaps.STRING_TO_HID_KEY[keyName], action))
  {
    LhsRoundTrip(isEject, isFn, keyName);
  }

  /** A written-out left-hand side starts with its first prefix (or the name), ends with the name, and holds no `=`. */
  lemma LhsTextShape(isEject: bool, isFn: bool, keyName: string)
    requires IsTrimmed(keyName) && keyName[0] != '#' && '=' !in keyName
    ensures var lhs := LhsText(isEject, isFn, keyName);
      IsTrimmed(lhs) && lhs[0] != '#' && '=' !in lhs
  {
  }

  /** A line with no `=`, or with more than one, yields no rule. */
  lemma OneEqualsSignPerRule(line: string)
    requires multiset(line)['='] != 1
    ensures ParseLine(line).None?
  {
    var t := Trim(line);
    SplitCount(t, '=');
    TrimKeepsOthers(line, '=');
  }

  /** Blank lines and comments yield no rule. */
  lemma SkippedLinesYieldNothing(line: string)
    requires IsSkipped(line)
    ensures ParseLine(line).None?
  {
  }

  // ---------------------------------------------------------------------
  // Loading a file

  /** What each line of a file yields. */
  function ParseLines(lines: seq<string>): (parsed: seq<Option<Rule>>)
    ensures |parsed| == |lines|
    ensures forall i :: 0 <= i < |lines| ==> parsed[i] == ParseLine(lines[i])
  {
    seq(|lines|, i requires 0 <= i < |lines| => ParseLine(lines[i]))
  }

  /** The rules among the parsed lines, in file order: every rule a line yields, and nothing else. */
  function Rules(parsed: seq<Option<Rule>>): (rules: seq<Rule>)
    ensures |rules| <= |parsed|
  {
    if parsed == [] then [] else Rules(parsed[..|parsed| - 1]) + Found(parsed[|parsed| - 1])
  }

  /** The rules are exactly the rules the lines yield: every one of them, and nothing else. */
  lemma {:induction false} RulesAreFound(parsed: seq<Option<Rule>>)
    ensures forall j :: 0 <= j < |parsed| && parsed[j].Some? ==> parsed[j].value in Rules(parsed)
    ensures forall rule :: rule in Rules(parsed) ==> Some(rule) in parsed
  {
    if parsed != [] {
      var n := |parsed| - 1;
      var init := parsed[..n];
      RulesAreFound(init);
      assert Rules(parsed) == Rules(init) + Found(parsed[n]);
      forall j | 0 <= j < |parsed| && parsed[j].Some? ensures parsed[j].value in Rules(parsed) {
        if j < n { assert init[j] == parsed[j]; }
      }
      forall rule | rule in Rules(parsed) ensures Some(rule) in parsed {
        if rule in Rules(init) { assert Some(rule) in init; }
      }
    }
  }

  /** The rule a line yields, as a sequence of zero or one rules. */
  function Found(parsed: Option<Rule>): seq<Rule>
  {
    match parsed
    case Some(rule) => [rule]
    case None => []
  }

  /** The tables the rules build, filed in order, so a later rule for the same table and key replaces an earlier one. */
  function BuildMaps(rules: seq<Rule>): KeyMaps
  {
    if rules == [] then EMPTY_MAPS
    else
      var rule := rules[|rules| - 1];
      Insert(BuildMaps(rules[..|rules| - 1]), rule.layer, rule.key, rule.action)
  }

  /** The tables after filing a line's rule, if it has one. */
  function File(maps: KeyMaps, parsed: Option<Rule>): KeyMaps
  {
    match parsed
    case Some(rule) => Insert(maps, rule.layer, rule.key, rule.action)
    case None => maps
  }

  /** Reading one more line files its rule, if it has one, into the tables built so far. */
  lemma LoadStep(parsed: seq<Option<Rule>>, i: nat)
    requires i < |parsed|
    ensures BuildMaps(Rules(parsed[..i + 1])) == File(BuildMaps(Rules(parsed[..i])), parsed[i])
  {
    var rules := Rules(parsed[..i]);
    assert parsed[..i + 1][..i] == parsed[..i];
    match parsed[i]
    case None =>
      assert rules + [] == rules;
    case Some(rule) =>
      assert (rules + [rule])[..|rules|] == rules;
  }

  /** The lines of a mapping file's text: Rust's `lines()` up to the whitespace trimmed off each line. */
  function Lines(text: string): seq<string>
  {
    Split(text, '\n')
  }

  /** The tables a mapping file's text loads into. */
  function Load(text: string): KeyMaps
  {
    BuildMaps(Rules(ParseLines(Lines(text))))
  }

  /** A rule that no later rule overrides is in force once the file is loaded. */
  lemma {:induction false} LastRuleWins(rules: seq<Rule>, i: nat)
    requires i < |rules|
    requires forall j :: i < j < |rules| ==> rules[j].layer != rules[i].layer || rules[j].key != rules[i].key
    ensures rules[i].key in Table(BuildMaps(rules), rules[i].layer)
    ensures Table(BuildMaps(rules), rules[i].layer)[rules[i].key] == rules[i].action
  {
    if i < |rules| - 1 {
      LastRuleWins(rules[..|rules| - 1], i);
    }
  }

  /** A line's rule that no later line overrides, for the same table and key, is in force once the file is loaded. */
  lemma {:induction false} LastLineWins(parsed: seq<Option<Rule>>, j: nat)
    requires j < |parsed| && parsed[j].Some?
    requires forall k :: j < k < |parsed| && parsed[k].Some? ==>
      parsed[k].value.layer != parsed[j].value.layer || parsed[k].value.key != parsed[j].value.key
    ensures var r := parsed[j].value; var table := Table(BuildMaps(Rules(parsed)), r.layer);
      r.key in table && table[r.key] == r.action
  {
    var n := |parsed| - 1;
    var r := parsed[j].value;
    var before := BuildMaps(Rules(parsed[..n]));
    LoadStep(parsed, n);
    assert parsed[..n + 1] == parsed;
    assert BuildMaps(Rules(parsed)) == File(before, parsed[n]);
    if j < n {
      LastLineWins(parsed[..n], j);
      assert r.key in Table(before, r.layer) && Table(before, r.layer)[r.key] == r.action;
      match parsed[n]
      case None =>
      case Some(later) =>
        assert later.layer != r.layer || later.key != r.key;
        assert File(before, parsed[n]) == Insert(before, later.layer, later.key, later.action);
    } else {
      assert parsed[n] == Some(r);
    }
  }

  /** A key that no line's rule names for a layer is absent from that layer's table once the file is loaded. */
  lemma UnruledLineKeyIsUnmapped(parsed: seq<Option<Rule>>, layer: Layer, key: HidKey)
    requires forall j :: 0 <= j < |parsed| && parsed[j].Some? ==> parsed[j].value.layer != layer || parsed[j].value.key != key
    ensures key !in Table(BuildMaps(Rules(parsed)), layer)
  {
    var rules := Rules(parsed);
    RulesAreFound(parsed);
    forall k | 0 <= k < |rules| ensures rules[k].layer != layer || rules[k].key != key {
      assert rules[k] in rules;
      var j :| 0 <= j < |parsed| && parsed[j] == Some(rules[k]);
    }
    UnruledKeyIsUnmapped(rules, layer, key);
  }

  /** A key no rule of a layer names is absent from that layer's table. */
  lemma {:induction false} UnruledKeyIsUnmapped(rules: seq<Rule>, layer: Layer, key: HidKey)
    requires forall j :: 0 <= j < |rules| ==> rules[j].layer != layer || rules[j].key != key
    ensures key !in Table(BuildMaps(rules), layer)
  {
    if rules != [] {
      UnruledKeyIsUnmapped(rules[..|rules| - 1], layer, key);
    }
  }

  /** A file with no rule in it loads four empty tables. */
  lemma {:induction false} NoRulesNoMappings(parsed: seq<Option<Rule>>)
    requires forall i :: 0 <= i < |parsed| ==> parsed[i].None?
    ensures Rules(parsed) == [] && BuildMaps(Rules(parsed)) == EMPTY_MAPS
  {
    if parsed != [] {
      NoRulesNoMappings(parsed[..|parsed| - 1]);
    }
  }

  /** A file of blank lines and comments loads four empty tables. */
  lemma CommentsOnlyFileIsEmpty(text: string)
    requires forall i :: 0 <= i < |Lines(text)| ==> IsSkipped(Lines(text)[i])
    ensures Load(text) == EMPTY_MAPS
  {
    NoRulesNoMappings(ParseLines(Lines(text)));
  }

  // ---------------------------------------------------------------------
  // Reacting to key events

  /** Fn and Eject track their own events; every other key leaves them as they were. */
  datatype Held = Held(fn: bool, eject: bool)

  function Track(held: Held, key: HidKey, value: i32): (h: Held)
    ensures key != FN_STATE_HID_KEY && key != EJECT_HID_KEY ==> h == held
    ensures key == FN_STATE_HID_KEY ==> h.fn == (value != 0) && h.eject == held.eject
    ensures key == EJECT_HID_KEY ==> h.eject == (value != 0) && h.fn == held.fn
  {
    if key == FN_STATE_HID_KEY then held.(fn := value != 0)
    else if key == EJECT_HID_KEY then held.(eject := value != 0)
    else held
  }

  /**
   * The action a key event triggers: none for Fn and Eject themselves or for
   * a release; otherwise the binding of the key in the table the held
   * modifiers select, if it has one.
   */
  function Respond(maps: KeyMaps, held: Held, key: HidKey, value: i32): (r: Option<Action>)
    ensures r.Some? <==>
      && key != FN_STATE_HID_KEY && key != EJECT_HID_KEY && value != 0
      && key in Table(maps, LayerOf(held.eject, held.fn))
    ensures r.Some? ==> r.value == Table(maps, LayerOf(held.eject, held.fn))[key]
  {
    if key == FN_STATE_HID_KEY || key == EJECT_HID_KEY || value == 0 then None
    else
      var table := Table(maps, LayerOf(held.eject, held.fn));
      if key in table then Some(table[key]) else None
  }

  /** The modifiers held after a run of events. */
  function HeldAfter(held: Held, events: seq<HidParser.Event>): Held
  {
    if events == [] then held
    else
      var e := events[|events| - 1];
      Track(HeldAfter(held, events[..|events| - 1]), e.key, e.value)
  }

  /** The actions a run of events triggers, in order. */
  function Triggered(maps: KeyMaps, held: Held, events: seq<HidParser.Event>): seq<Action>
  {
    if events == [] then []
    else
      var e := events[|events| - 1];
      var before := events[..|events| - 1];
      Triggered(maps, held, before)
      + match Respond(maps, HeldAfter(held, before), e.key, e.value) case Some(a) => [a] case None => []
  }

  /** Fn is held exactly when its latest event was a press. */
  lemma {:induction false} FnFollowsItsLastEvent(held: Held, events: seq<HidParser.Event>, i: nat)
    requires i < |events| && events[i].key == FN_STATE_HID_KEY
    requires forall j :: i < j < |events| ==> events[j].key != FN_STATE_HID_KEY
    ensures HeldAfter(held, events).fn == (events[i].value != 0)
  {
    if i < |events| - 1 {
      FnFollowsItsLastEvent(held, events[..|events| - 1], i);
    }
  }

  /** Eject is held exactly when its latest event was a press. */
  lemma {:induction false} EjectFollowsItsLastEvent(held: Held, events: seq<HidParser.Event>, i: nat)
    requires i < |events| && events[i].key == EJECT_HID_KEY
    requires forall j :: i < j < |events| ==> events[j].key != EJECT_HID_KEY
    ensures HeldAfter(held, events).eject == (events[i].value != 0)
  {
    if i < |events| - 1 {
      EjectFollowsItsLastEvent(held, events[..|events| - 1], i);
    }
  }

  /** Releases trigger nothing. */
  lemma {:induction false} ReleasesTriggerNothing(maps: KeyMaps, held: Held, events: seq<HidParser.Event>)
    requires forall i :: 0 <= i < |events| ==> events[i].value == 0
    ensures Triggered(maps, held, events) == []
  {
    if events != [] {
      ReleasesTriggerNothing(maps, held, events[..|events| - 1]);
    }
  }

  /** Pressing Fn and then a key fires the key's Fn binding, if it has one. */
  lemma FnChord(maps: KeyMaps, key: HidKey)
    requires key != FN_STATE_HID_KEY && key != EJECT_HID_KEY
    ensures Triggered(maps, Held(false, false),
      [HidParser.Event(FN_STATE_HID_KEY, 1), HidParser.Event(key, 1)])
      == if key in maps.fnMap then [maps.fnMap[key]] else []
  {
    var events := [HidParser.Event(FN_STATE_HID_KEY, 1), HidParser.Event(key, 1)];
    var first := events[..1];
    assert first == [HidParser.Event(FN_STATE_HID_KEY, 1)];
    assert first[..0] == [];
    assert HeldAfter(Held(false, false), first) == Held(true, false);
    assert Triggered(maps, Held(false, false), first) == [];
  }

  /** Pressing Fn, releasing it and then pressing a key fires the key's plain binding, if it has one. */
  lemma ReleasedFnChord(maps: KeyMaps, key: HidKey)
    requires key != FN_STATE_HID_KEY && key != EJECT_HID_KEY
    ensures Triggered(maps, Held(false, false),
      [HidParser.Event(FN_STATE_HID_KEY, 1), HidParser.Event(FN_STATE_HID_KEY, 0), HidParser.Event(key, 1)])
      == if key in maps.normal then [maps.normal[key]] else []
  {
    var events := [HidParser.Event(FN_STATE_HID_KEY, 1), HidParser.Event(FN_STATE_HID_KEY, 0), HidParser.Event(key, 1)];
    var first := events[..2];
    var press := first[..1];
    assert press == [HidParser.Event(FN_STATE_HID_KEY, 1)];
    assert press[..0] == [];
    assert HeldAfter(Held(false, false), press) == Held(true, false);
    assert Triggered(maps, Held(false, false), press) == [];
    assert HeldAfter(Held(false, false), first) == Held(false, false);
    assert Triggered(maps, Held(false, false), first) == [];
  }

  /** Files one rule into the table its layer selects, replacing any earlier binding of its key there. */
  method FileRule(tables: KeyMaps, rule: Rule) returns (r: KeyMaps)
    ensures r == Insert(tables, rule.layer, rule.key, rule.action)
  {
    var KeyMaps(normal, fnMap, ejectMap, ejectFnMap) := tables;
    if rule.layer == EjectFnLayer {
      ejectFnMap := ejectFnMap[rule.key := rule.action];
    } else if rule.layer == EjectLayer {
      ejectMap := ejectMap[rule.key := rule.action];
    } else if rule.layer == FnLayer {
      fnMap := fnMap[rule.key := rule.action];
    } else {
      normal := normal[rule.key := rule.action];
    }
    r := KeyMaps(normal, fnMap, ejectMap, ejectFnMap);
  }

  /** Parses the lines of a mapping file one by one, filing each rule into four fresh tables. */
  method LoadLines(lines: seq<string>) returns (maps: KeyMaps)
    ensures maps == BuildMaps(Rules(ParseLines(lines)))
  {
    ghost var parsed := ParseLines(lines);
    maps := KeyMaps(map[], map[], map[], map[]);
    for i := 0 to |lines|
      invariant maps == BuildMaps(Rules(parsed[..i]))
    {
      var line := ParseLine(lines[i]);
      LoadStep(parsed, i);
      match line {
        case None =>
        case Some(rule) =>
          maps := FileRule(maps, rule);
      }
    }
    assert parsed[..|lines|] == parsed;
  }

  /** A file of a single line loads what that line yields. */
  lemma OneLineFile(line: string)
    requires '\n' !in line
    ensures Load(line) == File(EMPTY_MAPS, ParseLine(line))
  {
    assert Lines(line) == [line];
    var parsed := ParseLines([line]);
    assert parsed[..0] == [];
    LoadStep(parsed, 0);
    assert parsed[..1] == parsed;
  }

  /** A rule line written out from newline-free parts is a single line. */
  lemma RuleLineIsOneLine(isEject: bool, isFn: bool, keyName: string, rhs: string)
    requires '\n' !in keyName && '\n' !in rhs
    ensures '\n' !in LhsText(isEject, isFn, keyName) + " = " + rhs
  {
    assert '\n' !in LhsText(isEject, isFn, keyName);
  }

  /** A file of one rule line loads that rule and nothing else. */
  lemma SingleRuleFile(isEject: bool, isFn: bool, keyName: string, rhs: string)
    requires keyName in VariableMaps.STRING_TO_HID_KEY
    requires IsTrimmed(keyName)
    requires keyName[0] != '#' && '+' !in keyName && '=' !in keyName && '\n' !in keyName
    requires IsTrimmed(rhs) && '=' !in rhs && '\n' !in rhs
    ensures Load(LhsText(isEject, isFn, keyName) + " = " + rhs)
      == Insert(EMPTY_MAPS, LayerOf(isEject, isFn), VariableMaps.STRING_TO_HID_KEY[keyName], ParseAction(rhs))
  {
    var text := LhsText(isEject, isFn, keyName) + " = " + rhs;
    RuleLineIsOneLine(isEject, isFn, keyName, rhs);
    LineRoundTrip(isEject, isFn, keyName, rhs);
    OneRuleFile(text, Rule(LayerOf(isEject, isFn), VariableMaps.STRING_TO_HID_KEY[keyName], ParseAction(rhs)));
  }

  /** A file of a single line that yields a rule loads that rule alone. */
  lemma OneRuleFile(line: string, rule: Rule)
    requires '\n' !in line && ParseLine(line) == Some(rule)
    ensures Load(line) == Insert(EMPTY_MAPS, rule.layer, rule.key, rule.action)
  {
    OneLineFile(line);
  }

  /** The state of one keyboard: the loaded tables and which modifiers are held. */
  class KeyMapper {
    var maps: KeyMaps
    var fnDown: bool
    var ejectDown: bool

    /** No tables loaded and no modifier held. */
    constructor()
      ensures maps == EMPTY_MAPS && !fnDown && !ejectDown
    {
      maps := EMPTY_MAPS;
      fnDown := false;
      ejectDown := false;
    }

    /**
     * Loads a mapping file whose text is `text` (`None` when it could not be
     * read). A file that was read replaces all four tables; one that was not
     * leaves them as they were.
     */
    method LoadMappingFile(text: Option<string>)
      modifies this
      ensures text.None? ==> maps == old(maps)
      ensures text.Some? ==> maps == Load(text.value)
      ensures fnDown == old(fnDown) && ejectDown == old(ejectDown)
    {
      if text.None? {
        return;
      }
      var loaded := LoadLines(Lines(text.value));
      maps := loaded;
    }

    /**
     * One key event: Fn and Eject update the held modifiers; any other key
     * press returns the action its binding in the selected table asks for.
     */
    method HandleHidEvent(usagePage: u16, usage: u16, value: i32) returns (action: Option<Action>)
      modifies this
      ensures maps == old(maps)
      ensures Held(fnDown, ejectDown) == Track(Held(old(fnDown), old(ejectDown)), HidKey(usagePage, usage), value)
      ensures action == Respond(maps, Held(old(fnDown), old(ejectDown)), HidKey(usagePage, usage), value)
    {
      var key := HidKey(usagePage, usage);
      if key == FN_STATE_HID_KEY {
        fnDown := value != 0;
        return None;
      }
      if key == EJECT_HID_KEY {
        ejectDown := value != 0;
        return None;
      }
      if value == 0 {
        return None;
      }
      var table;
      if ejectDown && fnDown {
        table := maps.ejectFnMap;
      } else if ejectDown {
        table := maps.ejectMap;
      } else if fnDown {
        table := maps.fnMap;
      } else {
        table := maps.normal;
      }
      action := if key in table then Some(table[key]) else None;
    }
  }
}
