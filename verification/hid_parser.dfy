/**
 * Decoding of the Apple A1314 keyboard's raw HID input reports into key
 * events. Keys that a report shows held form its snapshot; the decoder
 * remembers the previous snapshot and reports what was released and what
 * was pressed since. Report IDs:
 *   0x01        boot-keyboard layout with a report ID in front (modifier
 *               bitmap in byte 1, key codes from byte 3 on);
 *   0x02, 0x03  one little-endian Consumer-page usage in bytes 1-2;
 *   0x05, 0x11  Apple vendor-page flags in byte 1 (Fn, and for 0x11 Eject);
 *   other       a one-shot ("momentary") press that is never remembered.
 */
module HidParser {
  import opened Wrappers
  import opened HidKeys

  /** Key code of an empty slot (USB HID Usage Tables 1.12, section 10). */
  const NO_KEY: bv8 := 0
  /** Key code reported in every slot when too many keys are held (same section). */
  const ERROR_ROLLOVER: bv8 := 1

  /** Usages of the modifier keys, indexed by their bit in byte 1 of report 0x01. */
  const MODIFIER_CODES: seq<u16> := [
    0xE0,  // left control
    0xE1,  // left shift
    0xE2,  // left alt
    0xE3,  // left GUI
    0xE4,  // right control
    0xE5,  // right shift
    0xE6,  // right alt
    0xE7   // right GUI
  ]

  /** The Fn flag and the Eject key, as the decoder reports them. */
  const FN_KEY: HidKey := HidKey(APPLE_VENDOR_PAGE, 0x0003)
  const EJECT_KEY: HidKey := HidKey(CONSUMER_PAGE, 0x00B8)

  const KEY_UP: i32 := 0
  const KEY_DOWN: i32 := 1

  /** One decoded event: a key and whether it went down (1) or up (0). */
  datatype Event = Event(key: HidKey, value: i32)

  /** `u16::from_le_bytes([lo, hi])` */
  function LittleEndian(lo: bv8, hi: bv8): (r: u16)
    ensures r % 0x100 == lo as int && r / 0x100 == hi as int
  {
    lo as int + 0x100 * hi as int
  }

  /** Bit `bit` of `b` is set. */
  predicate BitSet(b: bv8, bit: nat)
    requires bit < 8
  {
    b & (1 << bit) != 0
  }

  /** The modifier keys whose bits are set in `modifiers`. */
  function ModifierKeys(modifiers: bv8): set<HidKey>
  {
    set bit | 0 <= bit < 8 && BitSet(modifiers, bit) :: HidKey(KEYBOARD_PAGE, MODIFIER_CODES[bit])
  }

  /** The key codes in slots `3..` of a keyboard report, skipping empty and roll-over slots. */
  function SlotKeys(report: seq<bv8>): set<HidKey>
  {
    set i | 3 <= i < |report| && report[i] != NO_KEY && report[i] != ERROR_ROLLOVER
      :: HidKey(KEYBOARD_PAGE, report[i] as u16)
  }

  /**
   * The keys a report of at least two bytes shows held. Report 0x01 needs 8
   * bytes and reports 0x02/0x03 need 3; a shorter one, like an unknown
   * report, shows nothing held.
   */
  function Snapshot(report: seq<bv8>): set<HidKey>
    requires |report| >= 2
  {
    match report[0]
    case 0x01 =>
      if |report| >= 8 then ModifierKeys(report[1]) + SlotKeys(report) else {}
    case 0x02 | 0x03 =>
      if |report| >= 3 && LittleEndian(report[1], report[2]) != 0
      then {HidKey(CONSUMER_PAGE, LittleEndian(report[1], report[2]))}
      else {}
    case 0x05 =>
      if BitSet(report[1], 0) then {FN_KEY} else {}
    case 0x11 =>
      (if BitSet(report[1], 3) then {EJECT_KEY} else {})
      + (if BitSet(report[1], 4) then {FN_KEY} else {})
    case _ => {}
  }

  predicate IsStatefulId(id: bv8)
  {
    id in {0x01, 0x02, 0x03, 0x05, 0x11}
  }

  /**
   * The press an unknown report carries, at most one: page in bytes 1-2
   * (little-endian), usage in byte 3, nothing when that usage is 0 or the
   * report is shorter than 4 bytes.
   */
  function Momentary(report: seq<bv8>): (m: seq<Event>)
    requires |report| >= 2
    ensures |m| <= 1
    ensures m != [] <==> !IsStatefulId(report[0]) && |report| >= 4 && report[3] != 0
    ensures m != [] ==> m[0] == Event(HidKey(LittleEndian(report[1], report[2]), report[3] as u16), KEY_DOWN)
  {
    if !IsStatefulId(report[0]) && |report| >= 4 && report[3] != 0
    then [Event(HidKey(LittleEndian(report[1], report[2]), report[3] as u16), KEY_DOWN)]
    else []
  }

  /** The keys the events name. */
  function KeysOf(events: seq<Event>): set<HidKey>
  {
    set i | 0 <= i < |events| :: events[i].key
  }

  /** `events` names each key of `keys` exactly once, each with `value`. */
  predicate Enumerates(events: seq<Event>, keys: set<HidKey>, value: i32)
  {
    && KeysOf(events) == keys
    && (forall i, j :: 0 <= i < j < |events| ==> events[i].key != events[j].key)
    && (forall i :: 0 <= i < |events| ==> events[i].value == value)
  }

  /**
   * The events that take the held set from `prev` to `cur`: with a previous
   * set, a release for each key of `prev - cur` followed by a press for each
   * key of `cur - prev`; on the first report, a press for each key of `cur`.
   * The order within each group is the hash set's and is left open.
   */
  predicate DiffEvents(prev: Option<set<HidKey>>, cur: set<HidKey>, events: seq<Event>)
  {
    match prev
    case None => Enumerates(events, cur, KEY_DOWN)
    case Some(p) =>
      var released := p - cur;
      |events| >= |released|
      && Enumerates(events[..|released|], released, KEY_UP)
      && Enumerates(events[|released|..], cur - p, KEY_DOWN)
  }

  /** What decoding `report` after the held set `prev` returns: the momentary press first, then the diff. */
  predicate ReportEvents(prev: Option<set<HidKey>>, report: seq<bv8>, events: seq<Event>)
    requires |report| >= 2
  {
    var m := Momentary(report);
    |events| >= |m| && events[..|m|] == m && DiffEvents(prev, Snapshot(report), events[|m|..])
  }

  lemma KeysOfAppend(events: seq<Event>, e: Event)
    ensures KeysOf(events + [e]) == KeysOf(events) + {e.key}
  {
    var s := events + [e];
    assert forall i :: 0 <= i < |events| ==> s[i] == events[i];
    assert s[|events|] == e;
  }

  /** An enumeration has one event per key. */
  lemma {:induction false} EnumerationSize(events: seq<Event>, keys: set<HidKey>, value: i32)
    requires Enumerates(events, keys, value)
    ensures |events| == |keys|
    decreases |events|
  {
    if events != [] {
      var init := events[..|events| - 1];
      var last := events[|events| - 1];
      assert events == init + [last];
      KeysOfAppend(init, last);
      assert last.key !in KeysOf(init);
      EnumerationSize(init, KeysOf(init), value);
      assert keys == KeysOf(init) + {last.key};
    }
  }

  /** One more key taken from `rest`: its event is appended unless the key is excluded. */
  lemma EnumerateStep(events: seq<Event>, keys: set<HidKey>, rest: set<HidKey>, excluded: set<HidKey>, key: HidKey, value: i32)
    requires key in rest && rest <= keys
    requires Enumerates(events, (keys - rest) - excluded, value)
    ensures key !in excluded ==> Enumerates(events + [Event(key, value)], (keys - (rest - {key})) - excluded, value)
    ensures key in excluded ==> Enumerates(events, (keys - (rest - {key})) - excluded, value)
  {
    if key !in excluded {
      var e := Event(key, value);
      var s := events + [e];
      KeysOfAppend(events, e);
      assert key !in KeysOf(events);
      assert forall i :: 0 <= i < |events| ==> s[i] == events[i];
      assert (keys - (rest - {key})) - excluded == (keys - rest) - excluded + {key};
    } else {
      assert (keys - (rest - {key})) - excluded == (keys - rest) - excluded;
    }
  }

  /** The events of `keys` not in `excluded`, one per key, each with `value`, in the set's order. */
  method EventsFor(keys: set<HidKey>, excluded: set<HidKey>, value: i32) returns (events: seq<Event>)
    ensures Enumerates(events, keys - excluded, value)
  {
    events := [];
    var rest := keys;
    while rest != {}
      invariant rest <= keys
      invariant Enumerates(events, (keys - rest) - excluded, value)
      decreases |rest|
    {
      var key :| key in rest;
      EnumerateStep(events, keys, rest, excluded, key, value);
      if key !in excluded {
        events := events + [Event(key, value)];
      }
      rest := rest - {key};
    }
  }

  /** The release and press loops: the events that take the held set from `prev` to `cur`. */
  method Diff(prev: Option<set<HidKey>>, cur: set<HidKey>) returns (events: seq<Event>)
    ensures DiffEvents(prev, cur, events)
  {
    match prev
    case None =>
      events := EventsFor(cur, {}, KEY_DOWN);
      assert cur - {} == cur;
    case Some(p) =>
      var releases := EventsFor(p, cur, KEY_UP);
      var presses := EventsFor(cur, p, KEY_DOWN);
      EnumerationSize(releases, p - cur, KEY_UP);
      events := releases + presses;
      assert events[..|p - cur|] == releases;
      assert events[|p - cur|..] == presses;
  }

  /** The modifier loop of report 0x01: one key per set bit. */
  method CollectModifiers(modifiers: bv8) returns (keys: set<HidKey>)
    ensures keys == ModifierKeys(modifiers)
  {
    keys := {};
    for bit := 0 to 8
      invariant keys == set b | 0 <= b < bit && BitSet(modifiers, b) :: HidKey(KEYBOARD_PAGE, MODIFIER_CODES[b])
    {
      if modifiers & (1 << bit) != 0 {
        keys := keys + {HidKey(KEYBOARD_PAGE, MODIFIER_CODES[bit])};
      }
    }
  }

  /** The slot loop of report 0x01: every byte from index 3 to the end that holds a real key code. */
  method CollectSlots(report: seq<bv8>) returns (keys: set<HidKey>)
    ensures keys == SlotKeys(report)
  {
    keys := {};
    if |report| <= 3 {
      return;
    }
    for i := 3 to |report|
      invariant keys == set j | 3 <= j < i && report[j] != NO_KEY && report[j] != ERROR_ROLLOVER
        :: HidKey(KEYBOARD_PAGE, report[j] as u16)
    {
      if report[i] != NO_KEY && report[i] != ERROR_ROLLOVER {
        keys := keys + {HidKey(KEYBOARD_PAGE, report[i] as u16)};
      }
    }
  }

  /** The held keys and the momentary press of one report, as the report-ID match computes them. */
  method ReadReport(report: seq<bv8>) returns (current: set<HidKey>, momentary: seq<Event>)
    requires |report| >= 2
    ensures current == Snapshot(report) && momentary == Momentary(report)
  {
    current, momentary := {}, [];
    var id := report[0];
    if id == 0x01 {
      if |report| >= 8 {
        var modifiers := CollectModifiers(report[1]);
        var slots := CollectSlots(report);
        current := modifiers + slots;
      }
    } else if id == 0x02 || id == 0x03 {
      if |report| >= 3 {
        var usage := LittleEndian(report[1], report[2]);
        if usage != 0 {
          current := {HidKey(CONSUMER_PAGE, usage)};
        }
      }
    } else if id == 0x05 || id == 0x11 {
      var fnState := false;
      if id == 0x05 {
        fnState := report[1] & 0x01 != 0;
      } else {
        fnState := report[1] & 0x10 != 0;
        if report[1] & 0x08 != 0 {
          current := current + {EJECT_KEY};
        }
      }
      if fnState {
        current := current + {FN_KEY};
      }
    } else if |report| >= 4 {
      var usagePage := LittleEndian(report[1], report[2]);
      var usage := report[3] as u16;
      if usage != 0 {
        momentary := [Event(HidKey(usagePage, usage), KEY_DOWN)];
      }
    }
  }

  /** The modifier table is the run 0xE0..0xE7: bit `b` of byte 1 stands for usage 0xE0 + b. */
  lemma ModifierKeysByBit(modifiers: bv8)
    ensures ModifierKeys(modifiers)
      == set bit | 0 <= bit < 8 && BitSet(modifiers, bit) :: HidKey(KEYBOARD_PAGE, 0xE0 + bit)
  {
    assert forall bit :: 0 <= bit < 8 ==> MODIFIER_CODES[bit] == 0xE0 + bit;
  }

  /** A keyboard report holds only keyboard-page keys, and a slot byte shows up as its own usage. */
  lemma KeyboardSnapshotKeys(report: seq<bv8>, i: nat)
    requires |report| >= 8 && report[0] == 0x01
    requires 3 <= i < |report| && report[i] != NO_KEY && report[i] != ERROR_ROLLOVER
    ensures HidKey(KEYBOARD_PAGE, report[i] as u16) in Snapshot(report)
    ensures forall k :: k in Snapshot(report) ==> k.usagePage == KEYBOARD_PAGE
  {
  }

  /** Stateful reports shorter than their layout show nothing held, and so does every unknown report. */
  lemma ShortOrUnknownSnapshotIsEmpty(report: seq<bv8>)
    requires |report| >= 2
    requires || (report[0] == 0x01 && |report| < 8)
             || (report[0] in {0x02, 0x03} && |report| < 3)
             || !IsStatefulId(report[0])
    ensures Snapshot(report) == {}
  {
  }

  /**
   * The vendor reports: 0x05 holds Fn exactly when bit 0x01 of byte 1 is
   * set; 0x11 holds Fn exactly when bit 0x10 is set and Eject exactly when
   * bit 0x08 is set; neither holds anything else.
   */
  lemma VendorSnapshot(report: seq<bv8>)
    requires |report| >= 2 && report[0] in {0x05, 0x11}
    ensures report[0] == 0x05 ==> (FN_KEY in Snapshot(report) <==> report[1] & 0x01 != 0)
    ensures report[0] == 0x11 ==> (FN_KEY in Snapshot(report) <==> report[1] & 0x10 != 0)
    ensures report[0] == 0x11 ==> (EJECT_KEY in Snapshot(report) <==> report[1] & 0x08 != 0)
    ensures Snapshot(report) <= {FN_KEY, EJECT_KEY}
    ensures report[0] == 0x05 ==> EJECT_KEY !in Snapshot(report)
  {
  }

  /**
   * A consumer report holds exactly one key when its usage is nonzero: the
   * Consumer-page usage whose low byte is byte 1 and whose high byte is byte 2.
   */
  lemma ConsumerSnapshot(report: seq<bv8>)
    requires |report| >= 3 && report[0] in {0x02, 0x03}
    ensures |Snapshot(report)| <= 1
    ensures forall k :: k in Snapshot(report) <==>
      k.usagePage == CONSUMER_PAGE && k.usage != 0
      && k.usage % 0x100 == report[1] as int && k.usage / 0x100 == report[2] as int
  {
    var u := LittleEndian(report[1], report[2]);
    forall k: HidKey | k.usage % 0x100 == report[1] as int && k.usage / 0x100 == report[2] as int
      ensures k.usage == u
    {
      assert k.usage == k.usage / 0x100 * 0x100 + k.usage % 0x100;
      assert u == u / 0x100 * 0x100 + u % 0x100;
    }
  }

  lemma KeysOfConcat(xs: seq<Event>, ys: seq<Event>)
    ensures KeysOf(xs + ys) == KeysOf(xs) + KeysOf(ys)
  {
    var s := xs + ys;
    forall k | k in KeysOf(xs) + KeysOf(ys) ensures k in KeysOf(s)
    {
      if k in KeysOf(xs) {
        var i :| 0 <= i < |xs| && xs[i].key == k;
        assert s[i] == xs[i];
      } else {
        var i :| 0 <= i < |ys| && ys[i].key == k;
        assert s[|xs| + i] == ys[i];
      }
    }
    forall k | k in KeysOf(s) ensures k in KeysOf(xs) + KeysOf(ys)
    {
      var i :| 0 <= i < |s| && s[i].key == k;
      if i < |xs| {
        assert s[i] == xs[i];
      } else {
        assert s[i] == ys[i - |xs|];
      }
    }
  }

  /**
   * The diff against a previous set names exactly the keys held in one
   * report but not the other: a release for each key no longer held, a
   * press for each newly held key, and nothing for a key held in both.
   */
  lemma DiffKeys(p: set<HidKey>, cur: set<HidKey>, events: seq<Event>)
    requires DiffEvents(Some(p), cur, events)
    ensures KeysOf(events) == (p - cur) + (cur - p)
    ensures forall i :: 0 <= i < |events| ==>
      && (events[i].value == KEY_UP <==> events[i].key in p - cur)
      && (events[i].value == KEY_DOWN <==> events[i].key in cur - p)
      && events[i].key !in p * cur
  {
    var n := |p - cur|;
    var ups, downs := events[..n], events[n..];
    assert events == ups + downs;
    KeysOfConcat(ups, downs);
    forall i | 0 <= i < |events|
      ensures events[i].value == KEY_UP <==> events[i].key in p - cur
      ensures events[i].value == KEY_DOWN <==> events[i].key in cur - p
    {
      if i < n {
        assert events[i] == ups[i];
        assert ups[i].key in KeysOf(ups);
      } else {
        assert events[i] == downs[i - n];
        assert downs[i - n].key in KeysOf(downs);
      }
    }
  }

  /** In the diff every release comes before every press, and no key appears twice. */
  lemma DiffOrder(p: set<HidKey>, cur: set<HidKey>, events: seq<Event>)
    requires DiffEvents(Some(p), cur, events)
    ensures forall i, j :: 0 <= i < j < |events| && events[j].value == KEY_UP ==> events[i].value == KEY_UP
    ensures forall i, j :: 0 <= i < j < |events| ==> events[i].key != events[j].key
  {
    var n := |p - cur|;
    var ups, downs := events[..n], events[n..];
    assert events == ups + downs;
    forall i, j | 0 <= i < j < |events| ensures events[i].key != events[j].key
    {
      if j < n {
        assert events[i] == ups[i] && events[j] == ups[j];
      } else if n <= i {
        assert events[i] == downs[i - n] && events[j] == downs[j - n];
      } else {
        assert events[i] == ups[i] && ups[i].key in KeysOf(ups);
        assert events[j] == downs[j - n] && downs[j - n].key in KeysOf(downs);
      }
    }
  }

  /** On the first report every held key is pressed, once, and nothing is released. */
  lemma FirstReportPressesAll(cur: set<HidKey>, events: seq<Event>)
    requires DiffEvents(None, cur, events)
    ensures |events| == |cur| && KeysOf(events) == cur
    ensures forall i :: 0 <= i < |events| ==> events[i].value == KEY_DOWN
  {
    EnumerationSize(events, cur, KEY_DOWN);
  }

  /** An enumeration of no keys is empty. */
  lemma EmptyEnumeration(events: seq<Event>, value: i32)
    requires Enumerates(events, {}, value)
    ensures events == []
  {
    EnumerationSize(events, {}, value);
  }

  /** Decoding a stateful report right after the same report yields no events. */
  lemma RepeatedReportIsSilent(report: seq<bv8>, events: seq<Event>)
    requires |report| >= 2 && IsStatefulId(report[0])
    requires ReportEvents(Some(Snapshot(report)), report, events)
    ensures events == []
  {
    var s := Snapshot(report);
    assert Momentary(report) == [];
    assert events[0..] == events;
    assert s - s == {};
    EmptyEnumeration(events[..0], KEY_UP);
    EmptyEnumeration(events[0..], KEY_DOWN);
  }

  /**
   * An unknown report yields its momentary press first and then releases
   * every key that was held; the momentary key is not remembered.
   */
  lemma UnknownReportReleasesAll(p: set<HidKey>, report: seq<bv8>, events: seq<Event>)
    requires |report| >= 2 && !IsStatefulId(report[0])
    requires ReportEvents(Some(p), report, events)
    ensures Snapshot(report) == {}
    ensures var m := Momentary(report);
      events[..|m|] == m && Enumerates(events[|m|..], p, KEY_UP)
  {
    var m := Momentary(report);
    var rest := events[|m|..];
    assert p - {} == p && {} - p == {};
    EnumerationSize(rest[..|p|], p, KEY_UP);
    EmptyEnumeration(rest[|p|..], KEY_DOWN);
    assert rest == rest[..|p|];
  }

  /** Left shift and A held: report [1, 0x02, 0, 4, 0, 0, 0, 0] shows exactly those two keys. */
  lemma ShiftAReport()
    ensures Snapshot([0x01, 0x02, 0x00, 0x04, 0x00, 0x00, 0x00, 0x00])
      == {HidKey(KEYBOARD_PAGE, 0xE1), HidKey(KEYBOARD_PAGE, 0x04)}
  {
    var r: seq<bv8> := [0x01, 0x02, 0x00, 0x04, 0x00, 0x00, 0x00, 0x00];
    assert BitSet(0x02, 1);
    assert forall bit :: 0 <= bit < 8 && bit != 1 ==> !BitSet(0x02, bit);
    assert ModifierKeys(0x02) == {HidKey(KEYBOARD_PAGE, 0xE1)};
    assert r[3] == 0x04;
    assert forall i :: 3 <= i < 8 && i != 3 ==> r[i] == NO_KEY;
    assert SlotKeys(r) == {HidKey(KEYBOARD_PAGE, 0x04)};
  }

  /** An unknown report 0x09 naming usage 7 on page 0x000C is one press and holds nothing. */
  lemma MomentaryReport()
    ensures Momentary([0x09, 0x0C, 0x00, 0x07]) == [Event(HidKey(CONSUMER_PAGE, 0x07), KEY_DOWN)]
    ensures Snapshot([0x09, 0x0C, 0x00, 0x07]) == {}
  {
    assert !IsStatefulId(0x09);
  }

  /** An enumeration of one key is that key's single event. */
  lemma SingletonEnumeration(events: seq<Event>, key: HidKey, value: i32)
    requires Enumerates(events, {key}, value)
    ensures events == [Event(key, value)]
  {
    EnumerationSize(events, {key}, value);
    assert events[0].key in KeysOf(events);
  }

  /** Fn held, as the Bluetooth vendor report 0x11 sends it. */
  const FN_REPORT: seq<bv8> := [0x11, 0x10]
  /** The letter A held alone, as keyboard report 0x01 sends it. */
  const A_REPORT: seq<bv8> := [0x01, 0x00, 0x00, 0x04, 0x00, 0x00, 0x00, 0x00]
  const A_KEY: HidKey := HidKey(KEYBOARD_PAGE, 0x04)

  /** Report 0x11 with bit 0x10 set holds Fn and nothing else, and carries no momentary press. */
  lemma FnReportHoldsFn()
    ensures Snapshot(FN_REPORT) == {FN_KEY} && Momentary(FN_REPORT) == []
  {
    assert BitSet(0x10, 4) && !BitSet(0x10, 3);
  }

  /** The keyboard report for A holds A and nothing else, and carries no momentary press. */
  lemma AReportHoldsA()
    ensures Snapshot(A_REPORT) == {A_KEY} && Momentary(A_REPORT) == []
  {
    assert forall bit :: 0 <= bit < 8 ==> !BitSet(0x00, bit);
    assert ModifierKeys(0x00) == {};
    assert A_REPORT[3] == 0x04;
    assert forall i :: 4 <= i < 8 ==> A_REPORT[i] == NO_KEY;
    assert SlotKeys(A_REPORT) == {A_KEY};
  }

  /** A report without a momentary press, against a previous set: the releases of the keys no longer held, then the presses of the new ones. */
  lemma StatefulReportEvents(prev: set<HidKey>, report: seq<bv8>, events: seq<Event>)
    requires |report| >= 2 && Momentary(report) == []
    requires ReportEvents(Some(prev), report, events)
    ensures Enumerates(events[..|prev - Snapshot(report)|], prev - Snapshot(report), KEY_UP)
    ensures Enumerates(events[|prev - Snapshot(report)|..], Snapshot(report) - prev, KEY_DOWN)
  {
    assert events[0..] == events;
  }

  /**
   * As written, one held set serves every report ID, so a keyboard report
   * releases the Fn key that only vendor reports can carry: Fn held (report
   * 0x11) and then A pressed (report 0x01) decodes to a release of Fn before
   * the press of A.
   */
  lemma KeyReportReleasesFn(events: seq<Event>)
    requires ReportEvents(Some(Snapshot(FN_REPORT)), A_REPORT, events)
    ensures events == [Event(FN_KEY, KEY_UP), Event(A_KEY, KEY_DOWN)]
  {
    FnReportHoldsFn();
    AReportHoldsA();
    assert {FN_KEY} - {A_KEY} == {FN_KEY} && {A_KEY} - {FN_KEY} == {A_KEY};
    StatefulReportEvents({FN_KEY}, A_REPORT, events);
    SingletonEnumeration(events[..1], FN_KEY, KEY_UP);
    SingletonEnumeration(events[1..], A_KEY, KEY_DOWN);
    assert events == events[..1] + events[1..];
  }

  /** The set a report is compared against when every report ID keeps its own held set. */
  function PriorFor(byId: map<bv8, set<HidKey>>, id: bv8): (r: Option<set<HidKey>>)
    ensures r.Some? <==> id in byId
    ensures r.Some? ==> r.value == byId[id]
  {
    if id in byId then Some(byId[id]) else None
  }

  /**
   * With one held set per report ID, a report releases only keys that the
   * last report of its own ID held and it no longer holds.
   */
  lemma ReleasesOnlyOwnKeys(byId: map<bv8, set<HidKey>>, report: seq<bv8>, events: seq<Event>)
    requires |report| >= 2 && ReportEvents(PriorFor(byId, report[0]), report, events)
    ensures forall i :: 0 <= i < |events| && events[i].value == KEY_UP ==>
      report[0] in byId && events[i].key in byId[report[0]] - Snapshot(report)
  {
    var m := Momentary(report);
    var rest := events[|m|..];
    assert forall i :: 0 <= i < |m| ==> events[i] == m[i] && events[i].value == KEY_DOWN;
    forall i | |m| <= i < |events| && events[i].value == KEY_UP
      ensures report[0] in byId && events[i].key in byId[report[0]] - Snapshot(report)
    {
      assert events[i] == rest[i - |m|];
      if report[0] in byId {
        DiffKeys(byId[report[0]], Snapshot(report), rest);
      }
    }
  }

  /**
   * With one held set per report ID, the keyboard report for A after the Fn
   * report is just the press of A: Fn stays held.
   */
  lemma KeyReportKeepsFn(events: seq<Event>)
    requires ReportEvents(PriorFor(map[FN_REPORT[0] := Snapshot(FN_REPORT)], A_REPORT[0]), A_REPORT, events)
    ensures events == [Event(A_KEY, KEY_DOWN)]
  {
    AReportHoldsA();
    SingletonEnumeration(events, A_KEY, KEY_DOWN);
  }

  /** The decoder and the held set it remembers between reports. */
  class Decoder {
    /** The snapshot of the last report of at least two bytes; None before the first. */
    var prev: Option<set<HidKey>>

    constructor()
      ensures prev == None
    {
      prev := None;
    }

    /**
     * `parse_a1314_hid_report`: a report shorter than two bytes is ignored;
     * any other report yields its momentary press, then the releases and
     * presses against the remembered set, which its snapshot then replaces.
     */
    method Decode(report: seq<bv8>) returns (events: seq<Event>)
      modifies this
      ensures |report| < 2 ==> events == [] && prev == old(prev)
      ensures |report| >= 2 ==> prev == Some(Snapshot(report)) && ReportEvents(old(prev), report, events)
    {
      if |report| < 2 {
        return [];
      }
      var current, momentary := ReadReport(report);
      var diff := Diff(prev, current);
      events := momentary + diff;
      assert events[..|momentary|] == momentary;
      assert events[|momentary|..] == diff;
      prev := Some(current);
    }
  }

  /**
   * The decoder with one held set per report ID: a report is compared only
   * with the last report of the same ID, so keys that only other reports can
   * carry (Fn and Eject in the vendor reports, the keyboard keys in report
   * 0x01) stay held until a report of their own kind says otherwise.
   */
  class ReportDecoder {
    /** The snapshot of the last report of at least two bytes with each ID. */
    var prevById: map<bv8, set<HidKey>>

    constructor()
      ensures prevById == map[]
    {
      prevById := map[];
    }

    method Decode(report: seq<bv8>) returns (events: seq<Event>)
      modifies this
      ensures |report| < 2 ==> events == [] && prevById == old(prevById)
      ensures |report| >= 2 ==>
        && prevById == old(prevById)[report[0] := Snapshot(report)]
        && ReportEvents(PriorFor(old(prevById), report[0]), report, events)
    {
      if |report| < 2 {
        return [];
      }
      var current, momentary := ReadReport(report);
      var prev := if report[0] in prevById then Some(prevById[report[0]]) else None;
      var diff := Diff(prev, current);
      events := momentary + diff;
      assert events[..|momentary|] == momentary;
      assert events[|momentary|..] == diff;
      prevById := prevById[report[0] := current];
    }
  }
}
