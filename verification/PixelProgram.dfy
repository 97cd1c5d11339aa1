/**
 Multi-page pixel programs of `device.py`: merging reported pages, judging a program
 complete, and rebuilding the packets that replay it.
 */
module PixelProgram {
  import opened Prelude
  import opened Bits
  import opened PixelFx

  /** The runtime's sorted page order: colour pages by serial, then base, then control. */
  datatype Key = Key(kind: nat, serial: int)

  predicate Less(a: Key, b: Key)
  {
    a.kind < b.kind || (a.kind == b.kind && a.serial < b.serial)
  }

  const CONTROL_KEY := Key(2, 0)

  function KeyOf(p: Page): Key
  {
    if p.effect.Rainbow? then CONTROL_KEY
    else if p.packetType == Some(Color) then Key(0, if p.serial.Some? then p.serial.value else 0)
    else if p.packetType == Some(Base) then Key(1, 0)
    else CONTROL_KEY
  }

  predicate IsControl(p: Page)
  {
    p.effect.Rainbow? || p.packetType == Some(Control)
  }

  datatype Runtime = Runtime(effect: Effect, playback: Playback, intensity: Option<int>, pages: seq<Page>)

  /** A tuple of pages in strictly ascending key order. */
  ghost predicate Sorted(pages: seq<Page>)
  {
    forall i, j :: 0 <= i < j < |pages| ==> Less(KeyOf(pages[i]), KeyOf(pages[j]))
  }

  function Lookup(pages: seq<Page>, k: Key): Option<Page>
  {
    if |pages| == 0 then None
    else if KeyOf(pages[0]) == k then Some(pages[0])
    else Lookup(pages[1..], k)
  }

  /** Overwrite the page under the report's key, keeping the pages sorted. */
  function Upsert(pages: seq<Page>, report: Page): seq<Page>
  {
    if |pages| == 0 || Less(KeyOf(report), KeyOf(pages[0])) then [report] + pages
    else if KeyOf(report) == KeyOf(pages[0]) then [report] + pages[1..]
    else [pages[0]] + Upsert(pages[1..], report)
  }

  function FindControl(pages: seq<Page>): Option<Page>
  {
    if |pages| == 0 then None
    else if IsControl(pages[0]) then Some(pages[0])
    else FindControl(pages[1..])
  }

  /** The global intensity: the first reported brightness, Pixel Fire's only from its base page. */
  function FindIntensity(pages: seq<Page>): Option<int>
  {
    if |pages| == 0 then None
    else if pages[0].brightness.Some? && (!pages[0].effect.PixelFire? || pages[0].packetType == Some(Base)) then
      pages[0].brightness
    else FindIntensity(pages[1..])
  }

  function Merge(current: Option<Runtime>, report: Page): Runtime
  {
    var same := current.Some? && current.value.effect == report.effect;
    var pages := Upsert(if same then current.value.pages else [], report);
    var control := FindControl(pages);
    var playback := if control.Some? then control.value.playback
                    else if same then current.value.playback else report.playback;
    Runtime(report.effect, playback, FindIntensity(pages), pages)
  }

  function MergeAll(current: Option<Runtime>, reports: seq<Page>): Option<Runtime>
  {
    if |reports| == 0 then current
    else Some(Merge(MergeAll(current, reports[..|reports| - 1]), reports[|reports| - 1]))
  }

  /** The decode-and-merge loop over a packet sequence; `None` where the source's assertion fails. */
  function DecodeSequence(payloads: seq<Bytes>): Option<Runtime>
  {
    if |payloads| == 0 then None
    else
      var last := Decode(payloads[|payloads| - 1]);
      if last.None? then None
      else if |payloads| == 1 then Some(Merge(None, last.value))
      else
        var before := DecodeSequence(payloads[..|payloads| - 1]);
        if before.None? then None else Some(Merge(before, last.value))
  }

  function SingleGroupPages(e: Effect): nat
  {
    if e.OnePixelChase? then 2 else if e.TwoPixelChase? then 3 else 4
  }

  /** How many colour pages the control page calls for, where it calls for a number. */
  function ColorPages(e: Effect, control: Page): Option<int>
  {
    if e.ColorFade? || e.ColorCycle? then
      if control.colorCount.Some? && control.colorCount.value >= 2 then control.colorCount else None
    else if IsChase(e) then
      if control.group == Some(0) then Some(SingleGroupPages(e))
      else if control.group == Some(1) then Some(2 * SingleGroupPages(e) - 1)
      else None
    else None
  }

  predicate HasKey(pages: seq<Page>, k: Key) { Lookup(pages, k).Some? }

  predicate Complete(state: Runtime)
  {
    if state.effect.Rainbow? then
      HasKey(state.pages, CONTROL_KEY) && forall p :: p in state.pages ==> KeyOf(p) == CONTROL_KEY
    else if !HasKey(state.pages, CONTROL_KEY) then false
    else if state.effect.PixelFire? then HasKey(state.pages, Key(0, 0)) && HasKey(state.pages, Key(1, 0))
    else
      var control := Lookup(state.pages, CONTROL_KEY).value;
      var count := ColorPages(state.effect, control);
      count.Some? && forall serial :: 0 <= serial < count.value ==> HasKey(state.pages, Key(0, serial))
  }

  /** Drop colour pages beyond the program's count. */
  function Truncate(pages: seq<Page>, count: int): seq<Page>
  {
    if |pages| == 0 then []
    else
      var keep := pages[0].packetType != Some(Color) || (pages[0].serial.Some? && pages[0].serial.value < count);
      (if keep then [pages[0]] else []) + Truncate(pages[1..], count)
  }

  function SourcePages(source: Runtime): seq<Page>
  {
    var control := Lookup(source.pages, CONTROL_KEY);
    if control.None? then source.pages
    else
      var count := ColorPages(source.effect, control.value);
      if count.None? then source.pages else Truncate(source.pages, count.value)
  }

  /** One page as it is sent: control pages carry the playback, every other page continues. */
  function Updated(p: Page, intensity: Option<int>, on: bool): Page
  {
    p.(playback := if IsControl(p) then (if on then Running else Stop) else Continue,
       brightness := if p.brightness.Some? && intensity.Some? then intensity else p.brightness)
  }

  function UpdatedAll(pages: seq<Page>, intensity: Option<int>, on: bool): (r: seq<Page>)
    ensures |r| == |pages|
    ensures forall i :: 0 <= i < |r| ==> r[i] == Updated(pages[i], intensity, on)
  {
    if |pages| == 0 then [] else [Updated(pages[0], intensity, on)] + UpdatedAll(pages[1..], intensity, on)
  }

  function EncodeAll(pages: seq<Page>): Result<seq<Bytes>, Error>
  {
    if |pages| == 0 then Ok([])
    else
      var before :- EncodeAll(pages[..|pages| - 1]);
      var last :- Encode(pages[|pages| - 1]);
      Ok(before + [last])
  }

  // ----- The app's default programs -----

  function DefaultColor(e: Effect, serial: nat, mode: LightMode, hue: int): Page
  {
    var p := Blank(e, Continue, Some(Color)).(serial := Some(serial), brightness := Some(180), lightMode := Some(mode));
    match mode
    case Cct => p.(cctRaw := Some(112), gmRaw := Some(100))
    case Hsi => p.(hue := Some(hue), saturation := Some(100), hsiCctRaw := Some(112))
    case Black => p
  }

  function DefaultPages(e: Effect, on: bool): seq<Page>
  {
    var final := if on then Running else Stop;
    match e
    case ColorFade =>
      [DefaultColor(e, 0, Cct, 360), DefaultColor(e, 1, Hsi, 120),
       Blank(e, final, Some(Control)).(colorCount := Some(2), direction := Some(1), speed := Some(100))]
    case ColorCycle =>
      [DefaultColor(e, 0, Cct, 360), DefaultColor(e, 1, Hsi, 120),
       Blank(e, final, Some(Control)).(colorCount := Some(2), direction := Some(1), speed := Some(20),
                                       changeWay := Some(0))]
    case OnePixelChase => [DefaultColor(e, 0, Hsi, 120), DefaultColor(e, 1, Cct, 0), DefaultChase(e, final)]
    case TwoPixelChase =>
      [DefaultColor(e, 0, Black, 0), DefaultColor(e, 1, Hsi, 120), DefaultColor(e, 2, Hsi, 240),
       DefaultChase(e, final)]
    case ThreePixelChase =>
      [DefaultColor(e, 0, Black, 0), DefaultColor(e, 1, Hsi, 120), DefaultColor(e, 2, Hsi, 240),
       DefaultColor(e, 3, Hsi, 360), DefaultChase(e, final)]
    case PixelFire =>
      [Blank(e, Continue, Some(Color)).(maxBrightness := Some(500), minBrightness := Some(180),
                                        lightMode := Some(Cct), cctRaw := Some(64), gmRaw := Some(100)),
       Blank(e, Continue, Some(Base)).(brightness := Some(180), lightMode := Some(Hsi), hue := Some(360),
                                       saturation := Some(100), hsiCctRaw := Some(112)),
       Blank(e, final, Some(Control)).(frequency := Some(20), direction := Some(0))]
    case Rainbow =>
      [Blank(e, final, None).(brightness := Some(180), direction := Some(0), speed := Some(100))]
  }

  function DefaultChase(e: Effect, final: Playback): Page
  {
    Blank(e, final, Some(Control)).(group := Some(0), direction := Some(1), speed := Some(100), pixelLength := Some(1))
  }

  /** Rebuild a program from the reported pages, or from the defaults when pages are missing. */
  function Payloads(current: Runtime, intensity: Option<int>, on: bool): Result<seq<Bytes>, Error>
  {
    var defaultPayloads :- EncodeAll(DefaultPages(current.effect, on));
    var defaults := DecodeSequence(defaultPayloads);
    if defaults.None? then Err(ValueError)
    else
      var source := if Complete(current) then current else defaults.value;
      EncodeAll(UpdatedAll(SourcePages(source), intensity, on))
  }

  // ----- Merging is a dictionary update -----

  lemma {:induction false} LookupPresent(pages: seq<Page>, i: nat)
    requires Sorted(pages) && i < |pages|
    ensures Lookup(pages, KeyOf(pages[i])) == Some(pages[i])
  {
    if i > 0 {
      assert Less(KeyOf(pages[0]), KeyOf(pages[i]));
      assert Sorted(pages[1..]);
      LookupPresent(pages[1..], i - 1);
    }
  }

  lemma {:induction false} LookupFound(pages: seq<Page>, k: Key)
    requires Lookup(pages, k).Some?
    ensures Lookup(pages, k).value in pages && KeyOf(Lookup(pages, k).value) == k
  {
    if KeyOf(pages[0]) != k {
      LookupFound(pages[1..], k);
    }
  }

  lemma {:induction false} UpsertMembers(pages: seq<Page>, report: Page, p: Page)
    requires p in Upsert(pages, report)
    ensures p == report || p in pages
  {
    if |pages| > 0 && Less(KeyOf(pages[0]), KeyOf(report)) {
      if p != pages[0] {
        UpsertMembers(pages[1..], report, p);
      }
    }
  }

  lemma LessTotal(a: Key, b: Key)
    ensures Less(a, b) || a == b || Less(b, a)
  {
  }

  lemma {:induction false} UpsertSorted(pages: seq<Page>, report: Page)
    requires Sorted(pages)
    ensures |Upsert(pages, report)| > 0
    ensures Sorted(Upsert(pages, report))
  {
    if |pages| > 0 {
      LessTotal(KeyOf(report), KeyOf(pages[0]));
      if Less(KeyOf(pages[0]), KeyOf(report)) {
        UpsertSorted(pages[1..], report);
        var rest := Upsert(pages[1..], report);
        forall j | 0 <= j < |rest| ensures Less(KeyOf(pages[0]), KeyOf(rest[j])) {
          UpsertMembers(pages[1..], report, rest[j]);
        }
      }
    }
  }

  /** The merged pages are the dictionary with the report's key overwritten. */
  lemma {:induction false} UpsertLookup(pages: seq<Page>, report: Page, k: Key)
    requires Sorted(pages)
    ensures Lookup(Upsert(pages, report), k) == if k == KeyOf(report) then Some(report) else Lookup(pages, k)
  {
    if |pages| > 0 {
      LessTotal(KeyOf(report), KeyOf(pages[0]));
      if Less(KeyOf(pages[0]), KeyOf(report)) {
        UpsertLookup(pages[1..], report, k);
      }
    }
  }

  /** Sorted pages are determined by what each key holds. */
  lemma {:induction false} SortedUnique(a: seq<Page>, b: seq<Page>)
    requires Sorted(a) && Sorted(b)
    requires forall k :: Lookup(a, k) == Lookup(b, k)
    ensures a == b
  {
    if |a| > 0 {
      assert Lookup(a, KeyOf(a[0])) == Lookup(b, KeyOf(a[0]));
    }
    if |b| > 0 {
      assert Lookup(a, KeyOf(b[0])) == Lookup(b, KeyOf(b[0]));
    }
    if |a| > 0 && |b| > 0 {
      HeadIsLeast(a, b);
      HeadIsLeast(b, a);
      assert a[0] == b[0];
      forall k ensures Lookup(a[1..], k) == Lookup(b[1..], k) {
        assert Lookup(a, k) == Lookup(b, k);
        if k == KeyOf(a[0]) {
          HeadKeyGone(a);
          HeadKeyGone(b);
        }
      }
      SortedUnique(a[1..], b[1..]);
      assert a == [a[0]] + a[1..] && b == [b[0]] + b[1..];
    }
  }

  lemma HeadKeyGone(a: seq<Page>)
    requires Sorted(a) && |a| > 0
    ensures Lookup(a[1..], KeyOf(a[0])).None?
  {
    forall i | 0 <= i < |a[1..]| ensures KeyOf(a[1..][i]) != KeyOf(a[0]) {
      assert Less(KeyOf(a[0]), KeyOf(a[i + 1]));
    }
    if Lookup(a[1..], KeyOf(a[0])).Some? {
      LookupFound(a[1..], KeyOf(a[0]));
    }
  }

  lemma HeadIsLeast(a: seq<Page>, b: seq<Page>)
    requires Sorted(a) && Sorted(b) && |a| > 0 && |b| > 0
    requires forall k :: Lookup(a, k) == Lookup(b, k)
    ensures !Less(KeyOf(b[0]), KeyOf(a[0]))
  {
    assert Lookup(a, KeyOf(b[0])) == Lookup(b, KeyOf(b[0]));
    LookupFound(a, KeyOf(b[0]));
    var i :| 0 <= i < |a| && KeyOf(a[i]) == KeyOf(b[0]);
    assert i == 0 || Less(KeyOf(a[0]), KeyOf(a[i]));
  }

  /** The last report received under a key. */
  function LastReport(reports: seq<Page>, k: Key): Option<Page>
  {
    if |reports| == 0 then None
    else if KeyOf(reports[|reports| - 1]) == k then Some(reports[|reports| - 1])
    else LastReport(reports[..|reports| - 1], k)
  }

  ghost predicate OfEffect(pages: seq<Page>, e: Effect)
  {
    forall i :: 0 <= i < |pages| ==> pages[i].effect == e && Canonical(pages[i])
  }

  /** A runtime state some list of reports can produce. */
  ghost predicate Valid(state: Runtime)
  {
    Sorted(state.pages) && OfEffect(state.pages, state.effect) && |state.pages| > 0
  }

  lemma {:induction false} MergeAllPages(current: Option<Runtime>, reports: seq<Page>, e: Effect)
    requires OfEffect(reports, e) && |reports| > 0
    requires current.None? || current.value.effect != e
    ensures MergeAll(current, reports).Some?
    ensures var merged := MergeAll(current, reports).value;
            merged.effect == e && Valid(merged)
            && merged.intensity == FindIntensity(merged.pages)
            && (FindControl(merged.pages).Some? ==> merged.playback == FindControl(merged.pages).value.playback)
            && forall k :: Lookup(merged.pages, k) == LastReport(reports, k)
  {
    hide Canonical, KeyOf, Less, Upsert, FindIntensity, FindControl;
    var before := reports[..|reports| - 1];
    var last := reports[|reports| - 1];
    var prior := if |before| == 0 then [] else MergeAll(current, before).value.pages;
    if |before| > 0 {
      MergeAllPages(current, before, e);
    }
    var merged := MergeAll(current, reports).value;
    assert last.effect == e && MergeAll(current, reports) == Some(Merge(MergeAll(current, before), last));
    assert merged.pages == Upsert(prior, last);
    UpsertSorted(prior, last);
    forall k ensures Lookup(merged.pages, k) == LastReport(reports, k) {
      UpsertLookup(prior, last, k);
    }
    forall i | 0 <= i < |merged.pages|
      ensures merged.pages[i].effect == e && Canonical(merged.pages[i])
    {
      UpsertMembers(prior, last, merged.pages[i]);
    }
  }

  lemma {:induction false} ControlFound(pages: seq<Page>, e: Effect)
    requires OfEffect(pages, e) && HasKey(pages, CONTROL_KEY)
    ensures FindControl(pages) == Lookup(pages, CONTROL_KEY)
  {
    if KeyOf(pages[0]) != CONTROL_KEY {
      assert OfEffect(pages[1..], e);
      ControlFound(pages[1..], e);
    }
  }

  lemma {:induction false} NoControlFound(pages: seq<Page>, e: Effect)
    requires OfEffect(pages, e) && !HasKey(pages, CONTROL_KEY)
    ensures FindControl(pages).None?
  {
    if |pages| > 0 {
      assert OfEffect(pages[1..], e);
      NoControlFound(pages[1..], e);
    }
  }

  /** Until a control page arrives the playback shown is the first report's. */
  lemma {:induction false} PlaybackWithoutControl(current: Option<Runtime>, reports: seq<Page>, e: Effect)
    requires OfEffect(reports, e) && |reports| > 0
    requires current.None? || current.value.effect != e
    requires LastReport(reports, CONTROL_KEY).None?
    ensures MergeAll(current, reports).Some?
    ensures MergeAll(current, reports).value.playback == reports[0].playback
  {
    MergeAllPages(current, reports, e);
    var merged := MergeAll(current, reports).value;
    assert Lookup(merged.pages, CONTROL_KEY) == LastReport(reports, CONTROL_KEY);
    NoControlFound(merged.pages, e);
    var before := reports[..|reports| - 1];
    if |before| > 0 {
      PlaybackWithoutControl(current, before, e);
      MergeAllPages(current, before, e);
    }
  }

  /**
   Reports of one effect merge to the same state in any order and with any repetition that
   leaves the same last report under each key, exactly when a control page is among them or
   both lists happen to begin with the same playback.
   */
  lemma MergeOrderIndependent(c1: Option<Runtime>, c2: Option<Runtime>, r1: seq<Page>, r2: seq<Page>, e: Effect)
    requires OfEffect(r1, e) && OfEffect(r2, e) && |r1| > 0 && |r2| > 0
    requires c1.None? || c1.value.effect != e
    requires c2.None? || c2.value.effect != e
    requires forall k :: LastReport(r1, k) == LastReport(r2, k)
    ensures MergeAll(c1, r1) == MergeAll(c2, r2)
      <==> LastReport(r1, CONTROL_KEY).Some? || r1[0].playback == r2[0].playback
  {
    MergeAllPages(c1, r1, e);
    MergeAllPages(c2, r2, e);
    var m1, m2 := MergeAll(c1, r1).value, MergeAll(c2, r2).value;
    assert Lookup(m1.pages, CONTROL_KEY) == LastReport(r1, CONTROL_KEY) == LastReport(r2, CONTROL_KEY);
    SortedUnique(m1.pages, m2.pages);
    if LastReport(r1, CONTROL_KEY).Some? {
      ControlFound(m1.pages, e);
    } else {
      PlaybackWithoutControl(c1, r1, e);
      PlaybackWithoutControl(c2, r2, e);
    }
  }

  // ----- Rebuilding a program -----

  /** The page the fixture reads: brightness is clamped to its ten wire bits. */
  function Settled(p: Page): Page
  {
    p.(brightness := if p.brightness.Some? then Some(Clamp(p.brightness.value, 10)) else None)
  }

  /** What a rebuilt page says: only playback and brightness may differ from its source page. */
  function Sent(p: Page, intensity: Option<int>, on: bool): Page
  {
    Settled(Updated(p, intensity, on))
  }

  ghost predicate SentFrom(sent: seq<Page>, pages: seq<Page>, intensity: Option<int>, on: bool)
  {
    |sent| == |pages| && forall i :: 0 <= i < |pages| ==> sent[i] == Sent(pages[i], intensity, on)
  }

  lemma ClampTwice(v: int, width: nat)
    ensures Clamp(Clamp(v, width), width) == Clamp(v, width)
  {
  }

  /** The wire fields of a page never see more than the clamped brightness. */
  lemma SettledFields(p: Page)
    ensures BodyFields(Settled(p)) == BodyFields(p)
  {
    if p.brightness.Some? {
      ClampTwice(p.brightness.value, 10);
    }
  }

  lemma SentCanonical(p: Page, intensity: Option<int>, on: bool)
    requires Canonical(p)
    ensures Canonical(Sent(p, intensity, on))
    ensures Encode(Updated(p, intensity, on)) == Encode(Sent(p, intensity, on))
    ensures KeyOf(Sent(p, intensity, on)) == KeyOf(p) && IsControl(Sent(p, intensity, on)) == IsControl(p)
    ensures Sent(p, intensity, on).effect == p.effect
  {
    SettledFields(Updated(p, intensity, on));
    var playback := Updated(p, intensity, on).playback;
    var brightness := Sent(p, intensity, on).brightness;
    CanonicalUpdate(p, playback, brightness);
    assert Sent(p, intensity, on) == p.(playback := playback, brightness := brightness);
  }

  lemma CanonicalUpdate(p: Page, playback: Playback, brightness: Option<int>)
    requires Canonical(p)
    requires brightness.Some? == p.brightness.Some?
    requires brightness.Some? ==> In(brightness, 10)
    ensures Canonical(p.(playback := playback, brightness := brightness))
  {
    var q := p.(playback := playback, brightness := brightness);
    var blank := Blank(q.effect, q.playback, q.packetType);
    if IsColorPage(p) {
      if !p.effect.PixelFire? {
        assert CanonicalColor(q, blank.(serial := q.serial, brightness := q.brightness));
      } else if p.packetType.value.Color? {
        assert CanonicalColor(q, blank.(maxBrightness := q.maxBrightness, minBrightness := q.minBrightness));
      } else {
        assert CanonicalColor(q, blank.(brightness := q.brightness));
      }
    }
  }

  lemma {:induction false} EncodeAllSent(pages: seq<Page>, updated: seq<Page>, sent: seq<Page>, intensity: Option<int>,
                                         on: bool)
    requires forall i :: 0 <= i < |pages| ==> Canonical(pages[i])
    requires |updated| == |pages| && forall i :: 0 <= i < |pages| ==> updated[i] == Updated(pages[i], intensity, on)
    requires SentFrom(sent, pages, intensity, on)
    ensures EncodeAll(updated) == EncodeAll(sent)
  {
    if |pages| > 0 {
      var n := |pages| - 1;
      EncodeAllSent(pages[..n], updated[..n], sent[..n], intensity, on);
      SentCanonical(pages[n], intensity, on);
    }
  }

  lemma {:induction false} DecodeEncodeAll(pages: seq<Page>)
    requires forall i :: 0 <= i < |pages| ==> Canonical(pages[i])
    ensures EncodeAll(pages).Ok? && |EncodeAll(pages).value| == |pages|
    ensures |pages| > 0 ==> DecodeSequence(EncodeAll(pages).value) == MergeAll(None, pages)
  {
    if |pages| > 0 {
      var n := |pages| - 1;
      DecodeEncodeAll(pages[..n]);
      DecodeEncode(pages[n]);
      var payloads := EncodeAll(pages).value;
      assert payloads[..n] == EncodeAll(pages[..n]).value;
    }
  }

  lemma {:induction false} UpsertAppends(pages: seq<Page>, last: Page)
    requires forall i :: 0 <= i < |pages| ==> Less(KeyOf(pages[i]), KeyOf(last))
    ensures Upsert(pages, last) == pages + [last]
  {
    if |pages| > 0 {
      forall i | 0 <= i < |pages[1..]| ensures Less(KeyOf(pages[1..][i]), KeyOf(last)) {
        assert pages[1..][i] == pages[i + 1];
      }
      UpsertAppends(pages[1..], last);
      assert pages == [pages[0]] + pages[1..];
    }
  }

  lemma MergeFirstPage(first: Page)
    ensures Merge(None, first).pages == [first] && Merge(None, first).effect == first.effect
  {
  }

  lemma MergeSamePages(current: Runtime, last: Page)
    requires current.effect == last.effect
    ensures Merge(Some(current), last).pages == Upsert(current.pages, last)
    ensures Merge(Some(current), last).effect == last.effect
  {
  }

  /** Pages sent in key order merge back to themselves. */
  lemma {:induction false} MergeAscending(pages: seq<Page>, e: Effect)
    requires Sorted(pages) && |pages| > 0
    requires forall i :: 0 <= i < |pages| ==> pages[i].effect == e
    ensures MergeAll(None, pages).Some?
    ensures MergeAll(None, pages).value.pages == pages && MergeAll(None, pages).value.effect == e
  {
    hide Merge, Upsert, KeyOf, Less;
    var n := |pages| - 1;
    if n > 0 {
      MergeAscending(pages[..n], e);
      UpsertAppends(pages[..n], pages[n]);
      MergeSamePages(MergeAll(None, pages[..n]).value, pages[n]);
      assert pages == pages[..n] + [pages[n]];
    } else {
      assert pages[..0] == [];
      MergeFirstPage(pages[0]);
      assert pages == [pages[0]];
    }
  }

  predicate Kept(p: Page, count: int)
  {
    p.packetType == Some(Color) ==> p.serial.Some? && p.serial.value < count
  }

  /** Truncation keeps, in order, exactly the pages the program uses. */
  lemma {:induction false} TruncateSpec(pages: seq<Page>, count: int, e: Effect)
    requires Sorted(pages) && OfEffect(pages, e)
    ensures Sorted(Truncate(pages, count)) && OfEffect(Truncate(pages, count), e)
    ensures forall p :: p in Truncate(pages, count) <==> p in pages && Kept(p, count)
  {
    if |pages| > 0 {
      assert Sorted(pages[1..]) && OfEffect(pages[1..], e);
      TruncateSpec(pages[1..], count, e);
      var rest := Truncate(pages[1..], count);
      forall j | 0 <= j < |rest| ensures Less(KeyOf(pages[0]), KeyOf(rest[j])) {
        assert rest[j] in pages[1..];
      }
    }
  }

  lemma LookupMember(pages: seq<Page>, p: Page)
    requires Sorted(pages) && p in pages
    ensures Lookup(pages, KeyOf(p)) == Some(p)
  {
    var i :| 0 <= i < |pages| && pages[i] == p;
    LookupPresent(pages, i);
  }

  lemma LookupTruncate(pages: seq<Page>, count: int, e: Effect, k: Key)
    requires Sorted(pages) && OfEffect(pages, e) && HasKey(pages, k)
    requires Kept(Lookup(pages, k).value, count)
    ensures Lookup(Truncate(pages, count), k) == Lookup(pages, k)
  {
    LookupFound(pages, k);
    TruncateSpec(pages, count, e);
    LookupMember(Truncate(pages, count), Lookup(pages, k).value);
  }

  /** The control page, and every colour below the count, is kept. */
  lemma KeptByKey(p: Page, control: Page, count: int)
    requires Canonical(p) && ColorPages(p.effect, control) == Some(count)
    requires KeyOf(p) == CONTROL_KEY || exists serial: nat :: serial < count && KeyOf(p) == Key(0, serial)
    ensures Kept(p, count)
  {
  }

  lemma LookupIn(pages: seq<Page>, e: Effect, k: Key)
    requires OfEffect(pages, e) && HasKey(pages, k)
    ensures var p := Lookup(pages, k).value; p.effect == e && Canonical(p) && KeyOf(p) == k
  {
    LookupFound(pages, k);
  }

  /** Truncating a complete program to its own count leaves it complete. */
  lemma SourceComplete(source: Runtime)
    requires Valid(source) && Complete(source)
    ensures var r := source.(pages := SourcePages(source)); Valid(r) && Complete(r)
    ensures Lookup(SourcePages(source), CONTROL_KEY) == Lookup(source.pages, CONTROL_KEY)
  {
    hide Canonical, KeyOf, Less, Lookup, Truncate, Sorted, OfEffect, Kept;
    var e := source.effect;
    if HasKey(source.pages, CONTROL_KEY) {
      var control := Lookup(source.pages, CONTROL_KEY).value;
      LookupIn(source.pages, e, CONTROL_KEY);
      var count := ColorPages(e, control);
      if count.Some? {
        TruncateSpec(source.pages, count.value, e);
        KeptByKey(control, control, count.value);
        LookupTruncate(source.pages, count.value, e, CONTROL_KEY);
        LookupFound(SourcePages(source), CONTROL_KEY);
        forall serial: nat | serial < count.value
          ensures HasKey(SourcePages(source), Key(0, serial))
        {
          LookupIn(source.pages, e, Key(0, serial));
          KeptByKey(Lookup(source.pages, Key(0, serial)).value, control, count.value);
          LookupTruncate(source.pages, count.value, e, Key(0, serial));
        }
      }
    }
  }

  lemma {:induction false} LookupSent(pages: seq<Page>, sent: seq<Page>, intensity: Option<int>, on: bool, k: Key)
    requires SentFrom(sent, pages, intensity, on)
    requires forall i :: 0 <= i < |pages| ==> Canonical(pages[i])
    ensures HasKey(sent, k) == HasKey(pages, k)
    ensures HasKey(pages, k) ==> Lookup(sent, k).value == Sent(Lookup(pages, k).value, intensity, on)
  {
    if |pages| > 0 {
      SentCanonical(pages[0], intensity, on);
      LookupSent(pages[1..], sent[1..], intensity, on, k);
    }
  }

  lemma SentComplete(source: Runtime, sent: seq<Page>, intensity: Option<int>, on: bool)
    requires Valid(source) && Complete(source) && SentFrom(sent, source.pages, intensity, on)
    ensures var r := source.(pages := sent); Valid(r) && Complete(r)
  {
    hide Canonical;
    forall k ensures HasKey(sent, k) == HasKey(source.pages, k)
      && (HasKey(source.pages, k) ==> Lookup(sent, k).value == Sent(Lookup(source.pages, k).value, intensity, on)) {
      LookupSent(source.pages, sent, intensity, on, k);
    }
    forall i | 0 <= i < |sent|
      ensures Canonical(sent[i]) && sent[i].effect == source.effect && KeyOf(sent[i]) == KeyOf(source.pages[i])
    {
      SentCanonical(source.pages[i], intensity, on);
    }
    SentValid(source, sent);
    if source.effect.Rainbow? {
      forall p | p in sent ensures KeyOf(p) == CONTROL_KEY {
        var i :| 0 <= i < |sent| && sent[i] == p;
        assert source.pages[i] in source.pages;
      }
    }
  }

  lemma SentValid(source: Runtime, sent: seq<Page>)
    requires Valid(source) && |sent| == |source.pages|
    requires forall i :: 0 <= i < |sent| ==>
      Canonical(sent[i]) && sent[i].effect == source.effect && KeyOf(sent[i]) == KeyOf(source.pages[i])
    ensures Valid(source.(pages := sent))
  {
    hide Canonical;
    forall i, j | 0 <= i < j < |sent| ensures Less(KeyOf(sent[i]), KeyOf(sent[j])) {
      assert Less(KeyOf(source.pages[i]), KeyOf(source.pages[j]));
    }
  }

  lemma KeyRange(p: Page)
    requires Canonical(p)
    ensures KeyOf(p) == CONTROL_KEY || Less(KeyOf(p), CONTROL_KEY)
    ensures IsControl(p) <==> KeyOf(p) == CONTROL_KEY
  {
  }

  lemma SortedAt(pages: seq<Page>, i: nat, j: nat)
    requires Sorted(pages) && i <= j < |pages|
    ensures i == j || Less(KeyOf(pages[i]), KeyOf(pages[j]))
  {
  }

  /** The control page of a valid program sorts last and is alone. */
  lemma ControlLast(pages: seq<Page>, e: Effect)
    requires Sorted(pages) && OfEffect(pages, e) && HasKey(pages, CONTROL_KEY)
    ensures IsControl(pages[|pages| - 1])
    ensures forall i :: 0 <= i < |pages| - 1 ==> !IsControl(pages[i])
    ensures Lookup(pages, CONTROL_KEY) == Some(pages[|pages| - 1])
  {
    hide Canonical;
    LookupFound(pages, CONTROL_KEY);
    var c :| 0 <= c < |pages| && KeyOf(pages[c]) == CONTROL_KEY;
    var last := |pages| - 1;
    KeyRange(pages[last]);
    KeyRange(pages[c]);
    SortedAt(pages, c, last);
    LookupPresent(pages, c);
    forall i | 0 <= i < last ensures !IsControl(pages[i]) {
      KeyRange(pages[i]);
      SortedAt(pages, i, last);
    }
  }

  lemma DefaultColorCanonical(e: Effect, serial: nat, mode: LightMode, hue: int)
    requires !e.Rainbow? && !e.PixelFire? && serial < 16 && 0 <= hue < 512
    ensures Canonical(DefaultColor(e, serial, mode, hue)) && DefaultColor(e, serial, mode, hue).effect == e
    ensures KeyOf(DefaultColor(e, serial, mode, hue)) == Key(0, serial)
  {
    SmallPowers();
  }

  lemma SmallPowers()
    ensures Pow2(2) == 4 && Pow2(3) == 8 && Pow2(4) == 16 && Pow2(7) == 128 && Pow2(8) == 256
    ensures Pow2(9) == 512 && Pow2(10) == 1024
  {
  }

  lemma DefaultChaseCanonical(e: Effect, final: Playback)
    requires IsChase(e)
    ensures Canonical(DefaultChase(e, final)) && KeyOf(DefaultChase(e, final)) == CONTROL_KEY
  {
    SmallPowers();
  }

  lemma DefaultCycleCanonical(e: Effect, on: bool)
    requires e.ColorFade? || e.ColorCycle?
    ensures var p := DefaultPages(e, on);
            |p| == 3 && Canonical(p[2]) && KeyOf(p[2]) == CONTROL_KEY
  {
    SmallPowers();
  }

  lemma DefaultFireCanonical(on: bool)
    ensures var p := DefaultPages(PixelFire, on);
            |p| == 3 && Canonical(p[0]) && Canonical(p[1]) && Canonical(p[2])
            && KeyOf(p[0]) == Key(0, 0) && KeyOf(p[1]) == Key(1, 0) && KeyOf(p[2]) == CONTROL_KEY
  {
    SmallPowers();
  }

  lemma DefaultRainbowCanonical(on: bool)
    ensures var p := DefaultPages(Rainbow, on);
            |p| == 1 && Canonical(p[0]) && KeyOf(p[0]) == CONTROL_KEY
  {
    SmallPowers();
  }

  lemma DefaultSpecialCanonical(e: Effect, on: bool)
    requires e.ColorFade? || e.ColorCycle? || e.PixelFire? || e.Rainbow?
    ensures var p := DefaultPages(e, on);
            Canonical(p[|p| - 1]) && KeyOf(p[|p| - 1]) == CONTROL_KEY
            && (e.PixelFire? ==> Canonical(p[0]) && Canonical(p[1]) && KeyOf(p[0]) == Key(0, 0) && KeyOf(p[1]) == Key(1, 0))
  {
    hide DefaultPages, Canonical, KeyOf;
    if e.PixelFire? {
      DefaultFireCanonical(on);
    } else if e.Rainbow? {
      DefaultRainbowCanonical(on);
    } else {
      DefaultCycleCanonical(e, on);
    }
  }

  /** Every default page but the last is a default colour of its own serial. */
  lemma DefaultColorAt(e: Effect, on: bool, serial: nat) returns (mode: LightMode, hue: int)
    requires !e.PixelFire? && !e.Rainbow? && serial < |DefaultPages(e, on)| - 1
    ensures serial < 16 && 0 <= hue < 512
    ensures DefaultPages(e, on)[serial] == DefaultColor(e, serial, mode, hue)
  {
    hide Canonical, KeyOf, DefaultColor, DefaultChase;
    match e {
      case ColorFade =>
        mode, hue := if serial == 0 then Cct else Hsi, if serial == 0 then 360 else 120;
      case ColorCycle =>
        mode, hue := if serial == 0 then Cct else Hsi, if serial == 0 then 360 else 120;
      case OnePixelChase =>
        mode, hue := if serial == 0 then Hsi else Cct, if serial == 0 then 120 else 0;
      case TwoPixelChase =>
        mode, hue := if serial == 0 then Black else Hsi, 120 * serial;
      case ThreePixelChase =>
        mode, hue := if serial == 0 then Black else Hsi, 120 * serial;
    }
  }

  /** The default pages come in key order: colours from serial 0, then base, then control. */
  lemma ColorsSorted(e: Effect, on: bool)
    requires !e.PixelFire? && !e.Rainbow?
    ensures var pages := DefaultPages(e, on);
            forall i :: 0 <= i < |pages| - 1 ==> Canonical(pages[i]) && pages[i].effect == e && KeyOf(pages[i]) == Key(0, i)
  {
    hide *;
    var pages := DefaultPages(e, on);
    forall i | 0 <= i < |pages| - 1
      ensures Canonical(pages[i]) && pages[i].effect == e && KeyOf(pages[i]) == Key(0, i)
    {
      var mode, hue := DefaultColorAt(e, on, i);
      DefaultColorCanonical(e, i, mode, hue);
    }
  }

  lemma ControlDefault(e: Effect, on: bool)
    ensures var pages := DefaultPages(e, on);
            |pages| >= 1 && Canonical(pages[|pages| - 1]) && KeyOf(pages[|pages| - 1]) == CONTROL_KEY
            && pages[|pages| - 1].effect == e
  {
    hide Canonical, KeyOf;
    if IsChase(e) {
      DefaultChaseCanonical(e, if on then Running else Stop);
    } else {
      DefaultSpecialCanonical(e, on);
    }
  }

  lemma DefaultsSorted(e: Effect, on: bool)
    ensures var pages := DefaultPages(e, on);
            |pages| > 0 && Sorted(pages) && OfEffect(pages, e) && KeyOf(pages[|pages| - 1]) == CONTROL_KEY
    ensures var pages := DefaultPages(e, on);
            !e.PixelFire? ==> forall i :: 0 <= i < |pages| - 1 ==> KeyOf(pages[i]) == Key(0, i)
    ensures var pages := DefaultPages(e, on);
            e.PixelFire? ==> |pages| == 3 && KeyOf(pages[0]) == Key(0, 0) && KeyOf(pages[1]) == Key(1, 0)
  {
    hide Canonical, KeyOf, DefaultPages;
    ControlDefault(e, on);
    if e.PixelFire? {
      DefaultFireCanonical(on);
      FireEffects(on);
    } else if e.Rainbow? {
      DefaultRainbowCanonical(on);
    } else {
      ColorsSorted(e, on);
    }
  }

  lemma FireEffects(on: bool)
    ensures var pages := DefaultPages(PixelFire, on);
            |pages| == 3 && pages[0].effect.PixelFire? && pages[1].effect.PixelFire?
  {
  }

  lemma NothingComplete(e: Effect)
    ensures !Complete(Runtime(e, Stop, None, []))
  {
  }

  lemma DefaultsMerge(e: Effect, on: bool)
    ensures Valid(Source(Runtime(e, Stop, None, []), on))
    ensures MergeAll(None, DefaultPages(e, on)) == Some(Source(Runtime(e, Stop, None, []), on))
  {
    hide Canonical, DefaultPages, KeyOf, Less, Merge, Lookup, FindIntensity, LastReport, MergeAll, Upsert, Sorted;
    DefaultsSorted(e, on);
    var pages := DefaultPages(e, on);
    NothingComplete(e);
    MergeAllPages(None, pages, e);
    MergeAscending(pages, e);
    LookupPresent(pages, |pages| - 1);
    ControlLast(pages, e);
    ControlFound(pages, e);
    DefaultControlPlayback(e, on);
  }

  lemma DefaultControlPlayback(e: Effect, on: bool)
    ensures var pages := DefaultPages(e, on); pages[|pages| - 1].playback == if on then Running else Stop
  {
  }

  lemma DefaultCount(e: Effect, on: bool)
    ensures var pages := DefaultPages(e, on);
            !e.PixelFire? && !e.Rainbow? ==> ColorPages(e, pages[|pages| - 1]) == Some(|pages| - 1)
    ensures e.Rainbow? ==> |DefaultPages(e, on)| == 1
  {
  }

  lemma DefaultsComplete(e: Effect, on: bool)
    ensures Complete(Runtime(e, if on then Running else Stop, FindIntensity(DefaultPages(e, on)), DefaultPages(e, on)))
  {
    hide Canonical;
    DefaultsSorted(e, on);
    DefaultCount(e, on);
    var pages := DefaultPages(e, on);
    ControlLastPresent(pages);
    forall i | 0 <= i < |pages| ensures HasKey(pages, KeyOf(pages[i])) {
      LookupPresent(pages, i);
    }
    if e.PixelFire? {
      assert HasKey(pages, KeyOf(pages[0])) && HasKey(pages, KeyOf(pages[1]));
    } else if !e.Rainbow? {
      forall serial | 0 <= serial < |pages| - 1 ensures HasKey(pages, Key(0, serial)) {
        assert HasKey(pages, KeyOf(pages[serial]));
      }
    }
  }

  lemma ControlLastPresent(pages: seq<Page>)
    requires Sorted(pages) && |pages| > 0 && KeyOf(pages[|pages| - 1]) == CONTROL_KEY
    ensures Lookup(pages, CONTROL_KEY) == Some(pages[|pages| - 1])
  {
    LookupPresent(pages, |pages| - 1);
  }

  /** The program a rebuild starts from. */
  function Source(current: Runtime, on: bool): Runtime
  {
    if Complete(current) then current
    else
      var pages := DefaultPages(current.effect, on);
      Runtime(current.effect, if on then Running else Stop, FindIntensity(pages), pages)
  }

  /** The packets sent are the encodings of the trimmed source pages, updated. */
  lemma PayloadsEncodeSent(current: Runtime, intensity: Option<int>, on: bool, sent: seq<Page>)
    requires Valid(current)
    requires SentFrom(sent, SourcePages(Source(current, on)), intensity, on)
    ensures Payloads(current, intensity, on) == EncodeAll(sent)
  {
    hide Canonical;
    DefaultsMerge(current.effect, on);
    DefaultsComplete(current.effect, on);
    DefaultsSorted(current.effect, on);
    DecodeEncodeAll(DefaultPages(current.effect, on));
    var source := Source(current, on);
    SourceComplete(source);
    var pages := SourcePages(source);
    EncodeAllSent(pages, UpdatedAll(pages, intensity, on), sent, intensity, on);
  }

  /**
   Rebuilding any reachable state yields packets that decode to a complete program with its
   one control page last; page by page it is the source program cut to the control's own
   colour count, changed only in playback and brightness.
   */
  lemma RebuildPreserves(current: Runtime, intensity: Option<int>, on: bool)
    requires Valid(current)
    ensures Payloads(current, intensity, on).Ok?
    ensures DecodeSequence(Payloads(current, intensity, on).value).Some?
    ensures var rebuilt := DecodeSequence(Payloads(current, intensity, on).value).value;
            var pages := rebuilt.pages;
            && rebuilt.effect == current.effect && Valid(rebuilt) && Complete(rebuilt)
            && rebuilt.playback == (if on then Running else Stop)
            && SentFrom(pages, SourcePages(Source(current, on)), intensity, on)
            && IsControl(pages[|pages| - 1]) && forall i :: 0 <= i < |pages| - 1 ==> !IsControl(pages[i])
  {
    hide Canonical, Payloads, Complete, MergeAll, DecodeSequence, EncodeAll, Sent, SourcePages, Merge;
    var e := current.effect;
    DefaultsMerge(e, on);
    DefaultsComplete(e, on);
    var source := Source(current, on);
    SourceComplete(source);
    var pages := SourcePages(source);
    var sent := seq(|pages|, i requires 0 <= i < |pages| => Sent(pages[i], intensity, on));
    SentComplete(source.(pages := pages), sent, intensity, on);
    PayloadsEncodeSent(current, intensity, on, sent);
    DecodeEncodeAll(sent);
    CompleteHasControl(source.(pages := sent));
    SentMerges(e, pages, sent, intensity, on);
    CompleteByPages(source.(pages := sent), MergeAll(None, sent).value);
  }

  lemma CompleteHasControl(state: Runtime)
    requires Complete(state)
    ensures HasKey(state.pages, CONTROL_KEY) && |state.pages| > 0
  {
  }

  lemma CompleteByPages(a: Runtime, b: Runtime)
    requires a.effect == b.effect && a.pages == b.pages
    ensures Complete(a) == Complete(b) && Valid(a) == Valid(b)
  {
  }

  lemma SentMerges(e: Effect, pages: seq<Page>, sent: seq<Page>, intensity: Option<int>, on: bool)
    requires SentFrom(sent, pages, intensity, on) && |sent| > 0
    requires Sorted(sent) && OfEffect(sent, e) && HasKey(sent, CONTROL_KEY)
    ensures MergeAll(None, sent).Some?
    ensures var merged := MergeAll(None, sent).value;
            merged.effect == e && merged.pages == sent && merged.playback == if on then Running else Stop
    ensures IsControl(sent[|sent| - 1]) && forall i :: 0 <= i < |sent| - 1 ==> !IsControl(sent[i])
  {
    hide Canonical;
    MergeAscending(sent, e);
    MergeAllPages(None, sent, e);
    ControlLast(sent, e);
    ControlFound(sent, e);
    SentPlayback(pages[|sent| - 1], intensity, on);
  }

  lemma SentPlayback(p: Page, intensity: Option<int>, on: bool)
    ensures IsControl(Sent(p, intensity, on)) ==> Sent(p, intensity, on).playback == if on then Running else Stop
  {
  }

  /** A complete program keeps exactly its pages below the control page's own count. */
  lemma SourceKeeps(source: Runtime, p: Page)
    requires Valid(source) && Complete(source)
    ensures var count := ColorPages(source.effect, source.pages[|source.pages| - 1]);
            p in SourcePages(source) <==> (p in source.pages && (count.Some? ==> Kept(p, count.value)))
  {
    hide Canonical;
    ControlLast(source.pages, source.effect);
    var count := ColorPages(source.effect, source.pages[|source.pages| - 1]);
    if count.Some? {
      TruncateSpec(source.pages, count.value, source.effect);
    }
  }
}
