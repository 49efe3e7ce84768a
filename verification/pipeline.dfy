/**
 * The decoder feeding the key mapper: the events a run of reports decodes
 * to, handed one by one to the mapper, and the actions they trigger. The
 * Fn layer only works when the Fn key is still held at the moment a
 * keyboard report presses the key; the shared held set of
 * `HidParser.Decoder` releases Fn first, the per-report-ID held sets of
 * `HidParser.ReportDecoder` keep it.
 */
module Pipeline {
  import opened Wrappers
  import opened HidKeys
  import opened HidParser
  import KeyMapper

  /** The Fn key the decoder reports is the one the mapper tracks. */
  lemma SameFnKey()
    ensures FN_KEY == KeyMapper.FN_STATE_HID_KEY && A_KEY != KeyMapper.EJECT_HID_KEY
  {
    KeyMapper.ModifierKeysAgree();
  }

  /** The events of the Fn report on a fresh decoder: the press of Fn, whichever held-set scheme is used. */
  lemma FnReportPressesFn(events: seq<Event>)
    requires ReportEvents(None, FN_REPORT, events)
    ensures events == [Event(FN_KEY, KEY_DOWN)]
  {
    FnReportHoldsFn();
    assert events[0..] == events;
    SingletonEnumeration(events, FN_KEY, KEY_DOWN);
  }

  /**
   * As written: Fn held and then A pressed triggers A's plain binding (or
   * nothing), never its Fn binding, because the keyboard report releases
   * Fn before it presses A.
   */
  lemma FnChordAsWritten(maps: KeyMapper.KeyMaps, first: seq<Event>, second: seq<Event>)
    requires ReportEvents(None, FN_REPORT, first)
    requires ReportEvents(Some(Snapshot(FN_REPORT)), A_REPORT, second)
    ensures KeyMapper.Triggered(maps, KeyMapper.Held(false, false), first + second)
      == if A_KEY in maps.normal then [maps.normal[A_KEY]] else []
  {
    SameFnKey();
    FnReportPressesFn(first);
    KeyReportReleasesFn(second);
    assert first + second == [Event(FN_KEY, KEY_DOWN), Event(FN_KEY, KEY_UP), Event(A_KEY, KEY_DOWN)];
    KeyMapper.ReleasedFnChord(maps, A_KEY);
  }

  /** With one held set per report ID, Fn held and then A pressed triggers A's Fn binding, if it has one. */
  lemma FnChordCorrected(maps: KeyMapper.KeyMaps, first: seq<Event>, second: seq<Event>)
    requires ReportEvents(PriorFor(map[], FN_REPORT[0]), FN_REPORT, first)
    requires ReportEvents(PriorFor(map[FN_REPORT[0] := Snapshot(FN_REPORT)], A_REPORT[0]), A_REPORT, second)
    ensures KeyMapper.Triggered(maps, KeyMapper.Held(false, false), first + second)
      == if A_KEY in maps.fnMap then [maps.fnMap[A_KEY]] else []
  {
    SameFnKey();
    FnReportPressesFn(first);
    KeyReportKeepsFn(second);
    assert first + second == [Event(FN_KEY, KEY_DOWN), Event(A_KEY, KEY_DOWN)];
    KeyMapper.FnChord(maps, A_KEY);
  }

  /** A fresh decoder with one shared held set, given the Fn report and then the A report. */
  method FnThenAAsWritten() returns (events: seq<Event>)
    ensures events == [Event(FN_KEY, KEY_DOWN), Event(FN_KEY, KEY_UP), Event(A_KEY, KEY_DOWN)]
  {
    var decoder := new Decoder();
    var first := decoder.Decode(FN_REPORT);
    FnReportPressesFn(first);
    var second := decoder.Decode(A_REPORT);
    KeyReportReleasesFn(second);
    events := first + second;
  }

  /** A fresh decoder with one held set per report ID, given the Fn report and then the A report. */
  method FnThenACorrected() returns (events: seq<Event>)
    ensures events == [Event(FN_KEY, KEY_DOWN), Event(A_KEY, KEY_DOWN)]
  {
    var decoder := new ReportDecoder();
    var first := decoder.Decode(FN_REPORT);
    FnReportPressesFn(first);
    var second := decoder.Decode(A_REPORT);
    KeyReportKeepsFn(second);
    events := first + second;
  }
}
