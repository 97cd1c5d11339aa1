/**
 The command-33 pixel-effect codec of `pixelfx.py`: seven effects, each sent as one control
 page plus colour pages, ten bytes a page.
 */
module PixelFx {
  import opened Prelude
  import opened Bits

  const CMD_PIXEL_EFFECT: nat := 33

  datatype Effect = ColorFade | ColorCycle | OnePixelChase | TwoPixelChase | ThreePixelChase | PixelFire | Rainbow

  datatype Playback = Stop | Pause | Running | Continue

  datatype PacketType = Control | Color | Base

  datatype LightMode = Cct | Hsi | Black

  datatype Error = ValueError

  /** The decoded state of one page; a field its layout lacks is `None`. */
  datatype Page = Page(
    effect: Effect, playback: Playback, packetType: Option<PacketType>,
    speed: Option<int>, direction: Option<int>, frequency: Option<int>, colorCount: Option<int>,
    changeWay: Option<int>, group: Option<int>, pixelLength: Option<int>, serial: Option<int>,
    brightness: Option<int>, maxBrightness: Option<int>, minBrightness: Option<int>,
    lightMode: Option<LightMode>, cctRaw: Option<int>, gmRaw: Option<int>, hue: Option<int>,
    saturation: Option<int>, hsiCctRaw: Option<int>)

  function Blank(effect: Effect, playback: Playback, packetType: Option<PacketType>): Page
  {
    Page(effect, playback, packetType, None, None, None, None, None, None, None, None, None, None, None,
         None, None, None, None, None, None)
  }

  function EffectId(e: Effect): nat
  {
    match e
    case ColorFade => 0
    case ColorCycle => 1
    case OnePixelChase => 2
    case TwoPixelChase => 3
    case ThreePixelChase => 4
    case PixelFire => 5
    case Rainbow => 7
  }

  function EffectOfId(id: nat): Option<Effect>
  {
    if id == 0 then Some(ColorFade)
    else if id == 1 then Some(ColorCycle)
    else if id == 2 then Some(OnePixelChase)
    else if id == 3 then Some(TwoPixelChase)
    else if id == 4 then Some(ThreePixelChase)
    else if id == 5 then Some(PixelFire)
    else if id == 7 then Some(Rainbow)
    else None
  }

  predicate IsChase(e: Effect) { e.OnePixelChase? || e.TwoPixelChase? || e.ThreePixelChase? }

  function PlaybackId(p: Playback): nat
  {
    match p
    case Stop => 0
    case Pause => 1
    case Running => 2
    case Continue => 3
  }

  function PlaybackOfId(id: nat): Playback
  {
    if id == 0 then Stop else if id == 1 then Pause else if id == 2 then Running else Continue
  }

  /** Force a value into `width` bits. */
  function Clamp(value: int, width: nat): (r: nat)
    ensures r < Pow2(width)
    ensures 0 <= value < Pow2(width) ==> r == value
  {
    Max(0, Min(Pow2(width) - 1, value))
  }

  function At(value: int, start: nat, width: nat): Placed
  {
    Placed(Clamp(value, width), start, width)
  }

  /** Where each colour page keeps its colour; the mode field ends the colour block. */
  datatype ColorLayout = ColorLayout(mode: nat, cct: nat, gm: nat, hue: nat, saturation: nat, hsiCct: nat)

  const COMMON_COLOR := ColorLayout(44, 35, 27, 35, 28, 19)
  const FIRE_COLOR := ColorLayout(38, 29, 21, 29, 22, 13)
  const FIRE_BASE := ColorLayout(48, 39, 31, 39, 32, 23)

  function ColorFields(p: Page, at: ColorLayout): Result<seq<Placed>, Error>
  {
    match p.lightMode
    case None => Err(ValueError)
    case Some(Cct) =>
      if p.cctRaw.None? || p.gmRaw.None? then Err(ValueError)
      else Ok([At(p.cctRaw.value, at.cct, 9), At(p.gmRaw.value, at.gm, 8), Placed(0, at.mode, 2)])
    case Some(Hsi) =>
      if p.hue.None? || p.saturation.None? || p.hsiCctRaw.None? then Err(ValueError)
      else Ok([At(p.hue.value, at.hue, 9), At(p.saturation.value, at.saturation, 7),
               At(p.hsiCctRaw.value, at.hsiCct, 9), Placed(1, at.mode, 2)])
    case Some(Black) => Ok([Placed(2, at.mode, 2)])
  }

  /** The layout of one page, as the builders pass it to `_build_payload`; `_require` failures are errors. */
  function BodyFields(p: Page): Result<seq<Placed>, Error>
  {
    if p.effect.Rainbow? then
      if p.packetType.Some? || p.brightness.None? || p.direction.None? || p.speed.None? then Err(ValueError)
      else Ok([At(p.speed.value, 39, 10), At(p.direction.value, 49, 3), At(p.brightness.value, 52, 10)])
    else if p.packetType.None? then Err(ValueError)
    else if p.packetType.value.Control? then
      if p.effect.ColorFade? then
        if p.colorCount.None? || p.direction.None? || p.speed.None? then Err(ValueError)
        else Ok([At(p.speed.value, 42, 10), At(p.direction.value, 52, 4), At(p.colorCount.value, 56, 4),
                 Placed(0, 60, 2)])
      else if p.effect.ColorCycle? then
        if p.colorCount.None? || p.direction.None? || p.speed.None? || p.changeWay.None? then Err(ValueError)
        else Ok([At(p.changeWay.value, 40, 2), At(p.speed.value, 42, 10), At(p.direction.value, 52, 4),
                 At(p.colorCount.value, 56, 4), Placed(0, 60, 2)])
      else if IsChase(p.effect) then
        if p.group.None? || p.direction.None? || p.speed.None? || p.pixelLength.None? then Err(ValueError)
        else Ok([At(p.speed.value, 43, 10), At(p.pixelLength.value, 53, 3), At(p.direction.value, 56, 2),
                 At(p.group.value, 58, 2), Placed(0, 60, 2)])
      else
        if p.frequency.None? || p.direction.None? then Err(ValueError)
        else Ok([At(p.direction.value, 48, 2), At(p.frequency.value, 50, 10), Placed(0, 60, 2)])
    else if !p.effect.PixelFire? then
      if !p.packetType.value.Color? || p.serial.None? || p.brightness.None? then Err(ValueError)
      else
        var color :- ColorFields(p, COMMON_COLOR);
        Ok(color + [At(p.brightness.value, 46, 10), At(p.serial.value, 56, 4), Placed(1, 60, 2)])
    else if p.packetType.value.Color? then
      if p.maxBrightness.None? || p.minBrightness.None? then Err(ValueError)
      else
        var color :- ColorFields(p, FIRE_COLOR);
        Ok(color + [At(p.minBrightness.value, 40, 10), At(p.maxBrightness.value, 50, 10), Placed(1, 60, 2)])
    else
      if p.brightness.None? then Err(ValueError)
      else
        var color :- ColorFields(p, FIRE_BASE);
        Ok(color + [At(p.brightness.value, 50, 10), Placed(2, 60, 2)])
  }

  /** Playback, effect, command and the write bit, which `_build_payload` adds to every page. */
  function Trailer(p: Page): seq<Placed>
  {
    [Placed(PlaybackId(p.playback), 62, 2), Placed(EffectId(p.effect), 64, 8),
     Placed(CMD_PIXEL_EFFECT, 72, 7), Placed(1, 79, 1)]
  }

  function Encode(p: Page): Result<Bytes, Error>
  {
    var body :- BodyFields(p);
    Ok(Finalize(Pack(body + Trailer(p))))
  }

  /** The light mode is given, with the fields that mode is sent with. */
  predicate ColorFilled(p: Page)
  {
    && p.lightMode.Some?
    && (p.lightMode.value.Cct? ==> p.cctRaw.Some? && p.gmRaw.Some?)
    && (p.lightMode.value.Hsi? ==> p.hue.Some? && p.saturation.Some? && p.hsiCctRaw.Some?)
  }

  /** What `_require` asks of a page: a page type its effect has, and every field of that page. */
  predicate Filled(p: Page)
  {
    var control := p.packetType == Some(Control);
    var color := p.packetType == Some(Color);
    && (p.effect.Rainbow? <==> p.packetType.None?)
    && (p.packetType == Some(Base) ==> p.effect.PixelFire?)
    && (p.effect.Rainbow? || control ==> p.direction.Some?)
    && (p.effect.Rainbow? || (control && !p.effect.PixelFire?) ==> p.speed.Some?)
    && (p.effect.Rainbow? || p.packetType == Some(Base) || (color && !p.effect.PixelFire?) ==> p.brightness.Some?)
    && (control && (p.effect.ColorFade? || p.effect.ColorCycle?) ==> p.colorCount.Some?)
    && (control && p.effect.ColorCycle? ==> p.changeWay.Some?)
    && (control && IsChase(p.effect) ==> p.group.Some? && p.pixelLength.Some?)
    && (control && p.effect.PixelFire? ==> p.frequency.Some?)
    && (color && p.effect.PixelFire? ==> p.maxBrightness.Some? && p.minBrightness.Some?)
    && (color && !p.effect.PixelFire? ==> p.serial.Some?)
    && (color || p.packetType == Some(Base) ==> ColorFilled(p))
  }

  /**
   `encode` in the source's own form: it raises for exactly the pages that lack a field, and a
   page as reports carry it loses nothing.
   */
  method EncodePage(p: Page) returns (r: Result<Bytes, Error>)
    ensures r == Encode(p)
    ensures r.Ok? <==> Filled(p)
    ensures Canonical(p) ==> r.Ok? && Decode(r.value) == Some(p)
  {
    FilledEncodes(p);
    if Canonical(p) {
      DecodeEncode(p);
    }
    hide Canonical, Decode, Filled;
    var body := BodyFields(p);
    if body.Err? {
      return Err(body.error);
    }
    var payload := BuildPayload(body.value + Trailer(p));
    r := Ok(payload);
  }

  lemma FilledEncodes(p: Page)
    ensures Encode(p).Ok? <==> Filled(p)
  {
  }

  function DecodeColor(p: Page, n: nat, at: ColorLayout): Option<Page>
  {
    var mode := Field(n, at.mode, 2);
    if mode == 0 then
      Some(p.(lightMode := Some(Cct), cctRaw := Some(Field(n, at.cct, 9)), gmRaw := Some(Field(n, at.gm, 8))))
    else if mode == 1 then
      Some(p.(lightMode := Some(Hsi), hue := Some(Field(n, at.hue, 9)),
              saturation := Some(Field(n, at.saturation, 7)), hsiCctRaw := Some(Field(n, at.hsiCct, 9))))
    else if mode == 2 then Some(p.(lightMode := Some(Black)))
    else None
  }

  function DecodeControl(p: Page, n: nat): Page
  {
    if p.effect.ColorFade? then
      p.(speed := Some(Field(n, 42, 10)), direction := Some(Field(n, 52, 4)), colorCount := Some(Field(n, 56, 4)))
    else if p.effect.ColorCycle? then
      p.(speed := Some(Field(n, 42, 10)), direction := Some(Field(n, 52, 4)), colorCount := Some(Field(n, 56, 4)),
         changeWay := Some(Field(n, 40, 2)))
    else if IsChase(p.effect) then
      p.(speed := Some(Field(n, 43, 10)), direction := Some(Field(n, 56, 2)), group := Some(Field(n, 58, 2)),
         pixelLength := Some(Field(n, 53, 3)))
    else p.(direction := Some(Field(n, 48, 2)), frequency := Some(Field(n, 50, 10)))
  }

  function DecodeFields(n: nat): Option<Page>
  {
    var id := EffectOfId(Field(n, 64, 8));
    if id.None? then None
    else
      var effect := id.value;
      var playback := PlaybackOfId(Field(n, 62, 2));
      if effect.Rainbow? then
        Some(Blank(effect, playback, None).(speed := Some(Field(n, 39, 10)), direction := Some(Field(n, 49, 3)),
                                            brightness := Some(Field(n, 52, 10))))
      else
        var kind := Field(n, 60, 2);
        if kind == 0 then Some(DecodeControl(Blank(effect, playback, Some(Control)), n))
        else if kind == 1 && !effect.PixelFire? then
          DecodeColor(Blank(effect, playback, Some(Color))
                      .(serial := Some(Field(n, 56, 4)), brightness := Some(Field(n, 46, 10))), n, COMMON_COLOR)
        else if kind == 1 then
          DecodeColor(Blank(effect, playback, Some(Color))
                      .(maxBrightness := Some(Field(n, 50, 10)), minBrightness := Some(Field(n, 40, 10))),
                      n, FIRE_COLOR)
        else if kind == 2 && effect.PixelFire? then
          DecodeColor(Blank(effect, playback, Some(Base)).(brightness := Some(Field(n, 50, 10))), n, FIRE_BASE)
        else None
  }

  function Decode(payload: Bytes): Option<Page>
  {
    if |payload| != 10 || payload[0] != Checksum(payload) || payload[9] % 128 != CMD_PIXEL_EFFECT then None
    else DecodeFields(FromLittleEndian(payload))
  }

  // ----- Round trip -----

  predicate In(v: Option<int>, width: nat)
  {
    v.Some? && 0 <= v.value < Pow2(width)
  }

  /** The part of `p` that is its colour, on an otherwise blank page. */
  predicate CanonicalColor(p: Page, blank: Page)
  {
    match p.lightMode
    case None => false
    case Some(Cct) =>
      In(p.cctRaw, 9) && In(p.gmRaw, 8)
      && p == blank.(lightMode := p.lightMode, cctRaw := p.cctRaw, gmRaw := p.gmRaw)
    case Some(Hsi) =>
      In(p.hue, 9) && In(p.saturation, 7) && In(p.hsiCctRaw, 9)
      && p == blank.(lightMode := p.lightMode, hue := p.hue, saturation := p.saturation, hsiCctRaw := p.hsiCctRaw)
    case Some(Black) => p == blank.(lightMode := p.lightMode)
  }

  /** Exactly the fields of the page's layout are present, each within its wire width. */
  predicate Canonical(p: Page)
  {
    var blank := Blank(p.effect, p.playback, p.packetType);
    if p.effect.Rainbow? then
      p.packetType.None? && In(p.speed, 10) && In(p.direction, 3) && In(p.brightness, 10)
      && p == blank.(speed := p.speed, direction := p.direction, brightness := p.brightness)
    else if p.packetType.None? then false
    else if p.packetType.value.Control? then
      if p.effect.ColorFade? then
        In(p.speed, 10) && In(p.direction, 4) && In(p.colorCount, 4)
        && p == blank.(speed := p.speed, direction := p.direction, colorCount := p.colorCount)
      else if p.effect.ColorCycle? then
        In(p.speed, 10) && In(p.direction, 4) && In(p.colorCount, 4) && In(p.changeWay, 2)
        && p == blank.(speed := p.speed, direction := p.direction, colorCount := p.colorCount, changeWay := p.changeWay)
      else if IsChase(p.effect) then
        In(p.speed, 10) && In(p.direction, 2) && In(p.group, 2) && In(p.pixelLength, 3)
        && p == blank.(speed := p.speed, direction := p.direction, group := p.group, pixelLength := p.pixelLength)
      else
        In(p.direction, 2) && In(p.frequency, 10) && p == blank.(direction := p.direction, frequency := p.frequency)
    else if !p.effect.PixelFire? then
      p.packetType.value.Color? && In(p.serial, 4) && In(p.brightness, 10)
      && CanonicalColor(p, blank.(serial := p.serial, brightness := p.brightness))
    else if p.packetType.value.Color? then
      In(p.maxBrightness, 10) && In(p.minBrightness, 10)
      && CanonicalColor(p, blank.(maxBrightness := p.maxBrightness, minBrightness := p.minBrightness))
    else
      In(p.brightness, 10) && CanonicalColor(p, blank.(brightness := p.brightness))
  }

  ghost predicate Within(fields: seq<Placed>, from: nat, to: nat)
  {
    forall i :: 0 <= i < |fields| ==> from <= fields[i].start && fields[i].End() <= to
  }

  /** The five offsets leave room for every colour field below the mode field. */
  predicate Fitting(at: ColorLayout)
  {
    8 <= at.gm && at.gm + 8 == at.cct && at.cct + 9 == at.mode
    && 8 <= at.hsiCct && at.hsiCct + 9 == at.saturation && at.saturation + 7 == at.hue && at.hue + 9 == at.mode
  }

  /** A page's colour block, which ends with its mode field. */
  lemma ColorDisjoint(p: Page, at: ColorLayout)
    requires Fitting(at)
    requires ColorFields(p, at).Ok?
    ensures PairwiseDisjoint(ColorFields(p, at).value)
    ensures Within(ColorFields(p, at).value, 8, at.mode + 2)
    ensures AllFit(ColorFields(p, at).value)
  {
    hide PairwiseDisjoint, Within, AllFit;
    ColorApart(p, at);
    ColorWithin(p, at);
    ColorFits(p, at);
  }

  lemma ColorApart(p: Page, at: ColorLayout)
    requires Fitting(at) && ColorFields(p, at).Ok?
    ensures PairwiseDisjoint(ColorFields(p, at).value)
  {
    hide Pow2;
  }

  lemma ColorWithin(p: Page, at: ColorLayout)
    requires Fitting(at) && ColorFields(p, at).Ok?
    ensures Within(ColorFields(p, at).value, 8, at.mode + 2)
  {
    hide Pow2;
  }

  lemma ColorFits(p: Page, at: ColorLayout)
    requires Fitting(at) && ColorFields(p, at).Ok?
    ensures AllFit(ColorFields(p, at).value)
  {
    assert Pow2(2) == 4;
  }

  predicate IsColorPage(p: Page) { !p.effect.Rainbow? && p.packetType.Some? && !p.packetType.value.Control? }

  lemma ControlDisjoint(p: Page)
    requires BodyFields(p).Ok? && !IsColorPage(p)
    ensures PairwiseDisjoint(BodyFields(p).value)
    ensures Within(BodyFields(p).value, 8, 62)
    ensures AllFit(BodyFields(p).value)
  {
    assert Pow2(2) == 4;
    var body := BodyFields(p).value;
    assert Tiles(body, body[0].start, 62);
    TilesDisjoint(body, body[0].start, 62);
  }

  lemma AppendDisjoint(color: seq<Placed>, rest: seq<Placed>, split: nat)
    requires PairwiseDisjoint(color) && PairwiseDisjoint(rest) && AllFit(color) && AllFit(rest)
    requires Within(color, 8, split) && Within(rest, split, 62) && 8 <= split <= 62
    ensures PairwiseDisjoint(color + rest) && Within(color + rest, 8, 62) && AllFit(color + rest)
  {
    JoinDisjoint(color, rest, split);
  }

  lemma LayoutDisjoint(p: Page)
    requires BodyFields(p).Ok?
    ensures PairwiseDisjoint(BodyFields(p).value)
    ensures Within(BodyFields(p).value, 8, 62)
    ensures AllFit(BodyFields(p).value)
  {
    assert Pow2(2) == 4;
    if !IsColorPage(p) {
      ControlDisjoint(p);
    } else if !p.effect.PixelFire? {
      ColorDisjoint(p, COMMON_COLOR);
      AppendDisjoint(ColorFields(p, COMMON_COLOR).value,
                     [At(p.brightness.value, 46, 10), At(p.serial.value, 56, 4), Placed(1, 60, 2)], 46);
    } else if p.packetType.value.Color? {
      ColorDisjoint(p, FIRE_COLOR);
      AppendDisjoint(ColorFields(p, FIRE_COLOR).value,
                     [At(p.minBrightness.value, 40, 10), At(p.maxBrightness.value, 50, 10), Placed(1, 60, 2)], 40);
    } else {
      ColorDisjoint(p, FIRE_BASE);
      AppendDisjoint(ColorFields(p, FIRE_BASE).value, [At(p.brightness.value, 50, 10), Placed(2, 60, 2)], 50);
    }
  }

  /** Every field of a built page reads back as the builder placed it. */
  lemma PageReads(p: Page)
    requires BodyFields(p).Ok?
    ensures var n := FromLittleEndian(Encode(p).value);
            var fields := BodyFields(p).value + Trailer(p);
            forall i :: 0 <= i < |fields| ==> Field(n, fields[i].start, fields[i].width) == fields[i].value
  {
    var body := BodyFields(p).value;
    LayoutDisjoint(p);
    JoinDisjoint(body, Trailer(p), 62);
    assert Pow2(2) == 4 && Pow2(7) == 128 && Pow2(8) == 256 && Pow2(1) == 2;
    BuiltReads(body + Trailer(p));
  }

  lemma EffectIdInverse(e: Effect)
    ensures EffectOfId(EffectId(e)) == Some(e)
  {
  }

  lemma TrailerReads(p: Page)
    requires BodyFields(p).Ok?
    ensures var n := FromLittleEndian(Encode(p).value);
            Field(n, 62, 2) == PlaybackId(p.playback) && Field(n, 64, 8) == EffectId(p.effect)
            && Field(n, 72, 7) == CMD_PIXEL_EFFECT
    ensures var n := FromLittleEndian(Encode(p).value);
            var body := BodyFields(p).value;
            forall i :: 0 <= i < |body| ==> Field(n, body[i].start, body[i].width) == body[i].value
  {
    PageReads(p);
    var body := BodyFields(p).value;
    var fields := body + Trailer(p);
    assert fields[|body|] == Trailer(p)[0] && fields[|body| + 1] == Trailer(p)[1] && fields[|body| + 2] == Trailer(p)[2];
    forall i | 0 <= i < |body|
      ensures Field(FromLittleEndian(Encode(p).value), body[i].start, body[i].width) == body[i].value
    {
      assert fields[i] == body[i];
    }
  }

  lemma ControlRoundTrip(p: Page, n: nat)
    requires Canonical(p) && !IsColorPage(p) && BodyFields(p).Ok?
    requires Field(n, 62, 2) == PlaybackId(p.playback) && Field(n, 64, 8) == EffectId(p.effect)
    requires var body := BodyFields(p).value;
             forall i :: 0 <= i < |body| ==> Field(n, body[i].start, body[i].width) == body[i].value
    ensures DecodeFields(n) == Some(p)
  {
    var b := BodyFields(p).value;
    EffectIdInverse(p.effect);
    if p.effect.Rainbow? || p.effect.PixelFire? {
      assert b[0].start < 50 && b[1].start < 52 && b[2].start < 62;
    } else if p.effect.ColorFade? {
      assert b[0].start == 42 && b[1].start == 52 && b[2].start == 56 && b[3].start == 60;
    } else if p.effect.ColorCycle? {
      assert b[0].start == 40 && b[1].start == 42 && b[2].start == 52 && b[3].start == 56 && b[4].start == 60;
    } else {
      assert b[0].start == 43 && b[1].start == 53 && b[2].start == 56 && b[3].start == 58 && b[4].start == 60;
    }
  }

  /** The colour block read back onto the rest of the page. */
  lemma ColorRoundTrip(p: Page, blank: Page, n: nat, at: ColorLayout)
    requires CanonicalColor(p, blank) && ColorFields(p, at).Ok?
    requires var c := ColorFields(p, at).value;
             forall i :: 0 <= i < |c| ==> Field(n, c[i].start, c[i].width) == c[i].value
    ensures DecodeColor(blank, n, at) == Some(p)
  {
    var c := ColorFields(p, at).value;
    assert c[|c| - 1].start == at.mode;
    if p.lightMode == Some(Cct) {
      assert c[0].start == at.cct && c[1].start == at.gm;
    } else if p.lightMode == Some(Hsi) {
      assert c[0].start == at.hue && c[1].start == at.saturation && c[2].start == at.hsiCct;
    }
  }

  lemma CommonPageRoundTrip(p: Page, n: nat)
    requires Canonical(p) && IsColorPage(p) && BodyFields(p).Ok? && !p.effect.PixelFire?
    requires Field(n, 62, 2) == PlaybackId(p.playback) && Field(n, 64, 8) == EffectId(p.effect)
    requires var body := BodyFields(p).value;
             forall i :: 0 <= i < |body| ==> Field(n, body[i].start, body[i].width) == body[i].value
    ensures DecodeFields(n) == Some(p)
  {
    var b := BodyFields(p).value;
    EffectIdInverse(p.effect);
    var blank := Blank(p.effect, p.playback, p.packetType);
    var c := ColorFields(p, COMMON_COLOR).value;
    forall i | 0 <= i < |c| ensures Field(n, c[i].start, c[i].width) == c[i].value {
      assert b[i] == c[i];
    }
    assert b[|b| - 1].start == 60 && b[|b| - 2].start == 56 && b[|b| - 3].start == 46;
    ColorRoundTrip(p, blank.(serial := p.serial, brightness := p.brightness), n, COMMON_COLOR);
    hide ColorFields, Field;
  }

  lemma FirePageRoundTrip(p: Page, n: nat)
    requires Canonical(p) && IsColorPage(p) && BodyFields(p).Ok? && p.effect.PixelFire? && p.packetType.value.Color?
    requires Field(n, 62, 2) == PlaybackId(p.playback) && Field(n, 64, 8) == EffectId(p.effect)
    requires var body := BodyFields(p).value;
             forall i :: 0 <= i < |body| ==> Field(n, body[i].start, body[i].width) == body[i].value
    ensures DecodeFields(n) == Some(p)
  {
    var b := BodyFields(p).value;
    EffectIdInverse(p.effect);
    var blank := Blank(p.effect, p.playback, p.packetType);
    var c := ColorFields(p, FIRE_COLOR).value;
    forall i | 0 <= i < |c| ensures Field(n, c[i].start, c[i].width) == c[i].value {
      assert b[i] == c[i];
    }
    assert b[|b| - 1].start == 60 && b[|b| - 2].start == 50 && b[|b| - 3].start == 40;
    ColorRoundTrip(p, blank.(maxBrightness := p.maxBrightness, minBrightness := p.minBrightness), n, FIRE_COLOR);
    hide ColorFields, Field;
  }

  lemma BasePageRoundTrip(p: Page, n: nat)
    requires Canonical(p) && IsColorPage(p) && BodyFields(p).Ok? && p.effect.PixelFire? && p.packetType.value.Base?
    requires Field(n, 62, 2) == PlaybackId(p.playback) && Field(n, 64, 8) == EffectId(p.effect)
    requires var body := BodyFields(p).value;
             forall i :: 0 <= i < |body| ==> Field(n, body[i].start, body[i].width) == body[i].value
    ensures DecodeFields(n) == Some(p)
  {
    var b := BodyFields(p).value;
    EffectIdInverse(p.effect);
    var blank := Blank(p.effect, p.playback, p.packetType);
    var c := ColorFields(p, FIRE_BASE).value;
    forall i | 0 <= i < |c| ensures Field(n, c[i].start, c[i].width) == c[i].value {
      assert b[i] == c[i];
    }
    assert b[|b| - 1].start == 60 && b[|b| - 2].start == 50;
    ColorRoundTrip(p, blank.(brightness := p.brightness), n, FIRE_BASE);
    hide ColorFields, Field;
  }

  lemma ColorPageRoundTrip(p: Page, n: nat)
    requires Canonical(p) && IsColorPage(p) && BodyFields(p).Ok?
    requires Field(n, 62, 2) == PlaybackId(p.playback) && Field(n, 64, 8) == EffectId(p.effect)
    requires var body := BodyFields(p).value;
             forall i :: 0 <= i < |body| ==> Field(n, body[i].start, body[i].width) == body[i].value
    ensures DecodeFields(n) == Some(p)
  {
    hide Canonical, BodyFields, DecodeFields, Field;
    if !p.effect.PixelFire? {
      CommonPageRoundTrip(p, n);
    } else if p.packetType.value.Color? {
      FirePageRoundTrip(p, n);
    } else {
      BasePageRoundTrip(p, n);
    }
  }

  /** A canonical page always encodes, and decodes to itself. */
  lemma DecodeEncode(p: Page)
    requires Canonical(p)
    ensures Encode(p).Ok? && Decode(Encode(p).value) == Some(p)
  {
    assert BodyFields(p).Ok?;
    TrailerReads(p);
    CommandBits(Encode(p).value);
    if IsColorPage(p) {
      ColorPageRoundTrip(p, FromLittleEndian(Encode(p).value));
    } else {
      ControlRoundTrip(p, FromLittleEndian(Encode(p).value));
    }
  }

  lemma FieldIn(n: nat, start: nat, width: nat)
    ensures In(Some(Field(n, start, width)), width)
  {
    LowBound(Shr(n, start), width);
  }

  lemma DecodedColor(blank: Page, n: nat, at: ColorLayout)
    requires DecodeColor(blank, n, at).Some?
    requires blank.lightMode.None? && blank.cctRaw.None? && blank.gmRaw.None? && blank.hue.None?
             && blank.saturation.None? && blank.hsiCctRaw.None?
    ensures CanonicalColor(DecodeColor(blank, n, at).value, blank)
  {
    FieldIn(n, at.cct, 9);
    FieldIn(n, at.gm, 8);
    FieldIn(n, at.hue, 9);
    FieldIn(n, at.saturation, 7);
    FieldIn(n, at.hsiCct, 9);
  }

  lemma DecodedControl(effect: Effect, playback: Playback, n: nat)
    requires !effect.Rainbow?
    ensures Canonical(DecodeControl(Blank(effect, playback, Some(Control)), n))
  {
    FieldIn(n, 40, 2);
    FieldIn(n, 42, 10);
    FieldIn(n, 43, 10);
    FieldIn(n, 48, 2);
    FieldIn(n, 50, 10);
    FieldIn(n, 52, 4);
    FieldIn(n, 53, 3);
    FieldIn(n, 56, 4);
    FieldIn(n, 56, 2);
    FieldIn(n, 58, 2);
  }

  /** Only canonical pages are ever decoded. */
  lemma DecodedCanonical(payload: Bytes)
    requires Decode(payload).Some?
    ensures Canonical(Decode(payload).value)
  {
    var n := FromLittleEndian(payload);
    var effect := EffectOfId(Field(n, 64, 8)).value;
    var playback := PlaybackOfId(Field(n, 62, 2));
    var kind := Field(n, 60, 2);
    FieldIn(n, 39, 10);
    FieldIn(n, 49, 3);
    FieldIn(n, 52, 10);
    FieldIn(n, 56, 4);
    FieldIn(n, 46, 10);
    FieldIn(n, 50, 10);
    FieldIn(n, 40, 10);
    if effect.Rainbow? {
    } else if kind == 0 {
      DecodedControl(effect, playback, n);
    } else if kind == 1 && !effect.PixelFire? {
      DecodedColor(Blank(effect, playback, Some(Color))
                   .(serial := Some(Field(n, 56, 4)), brightness := Some(Field(n, 46, 10))), n, COMMON_COLOR);
    } else if kind == 1 {
      DecodedColor(Blank(effect, playback, Some(Color))
                   .(maxBrightness := Some(Field(n, 50, 10)), minBrightness := Some(Field(n, 40, 10))), n, FIRE_COLOR);
    } else {
      DecodedColor(Blank(effect, playback, Some(Base)).(brightness := Some(Field(n, 50, 10))), n, FIRE_BASE);
    }
  }

  /** `decode(encode(decode(p)))` equals `decode(p)` for every packet that decodes. */
  lemma ReportsSurviveRewriting(payload: Bytes)
    requires Decode(payload).Some?
    ensures Encode(Decode(payload).value).Ok?
    ensures Decode(Encode(Decode(payload).value).value) == Decode(payload)
  {
    DecodedCanonical(payload);
    DecodeEncode(Decode(payload).value);
  }
}
