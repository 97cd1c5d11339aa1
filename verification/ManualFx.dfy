/**
 The Manual FX codec of `manualfx.py`: command 31, four subtypes, ten-byte packets whose
 reserved bits must be zero.

 A message is one constructor per wire layout, so each carries exactly the fields that
 layout uses.
 */
module ManualFx {
  import opened Prelude
  import opened Bits

  const CMD_MANUAL_EFFECT: nat := 31

  datatype Error = ValueError

  datatype Message =
      // subtype 0, base 0: green/magenta and CCT ranges
    | Tint(option: nat, ctrl: nat, gmSeq: nat, gmMax: nat, gmMin: nat, cctSeq: nat, cctMax: nat,
        cctMin: nat, intensitySeq: nat, intensityMax: nat, intensityMin: nat)
      // subtype 0, any other base: saturation and hue ranges
    | Colour(option: nat, ctrl: nat, base: nat, saturationSeq: nat, saturationMax: nat,
        saturationMin: nat, hueSeq: nat, hueMax: nat, hueMin: nat, intensitySeq: nat,
        intensityMax: nat, intensityMin: nat)
      // subtype 1, effect mode 0: free-time range
    | FreeCycle(option: nat, ctrl: nat, freeTimeSeq: nat, freeTimeMax: nat, freeTimeMin: nat,
        cycleTimeSeq: nat, cycleTimeMax: nat, cycleTimeMin: nat, loopTimes: nat, loopMode: nat)
      // subtype 1, effect mode 1: fade-in range
    | FadeInCycle(option: nat, ctrl: nat, fadeInCurve: nat, fadeInTimeSeq: nat, fadeInTimeMax: nat,
        fadeInTimeMin: nat, cycleTimeSeq: nat, cycleTimeMax: nat, cycleTimeMin: nat,
        loopTimes: nat, loopMode: nat)
      // subtype 1, effect modes 2 and 3: segments, overlap and OLR
    | OverlapCycle(option: nat, ctrl: nat, mode: nat, unitTimeSeg: nat, freeTimeSeg: nat, overlapSeq: nat,
        olrSeq: nat, olrMax: nat, olrMin: nat, cycleTimeSeq: nat, cycleTimeMax: nat,
        cycleTimeMin: nat, loopTimes: nat, loopMode: nat)
      // subtype 2, effect mode 0: frequency and unit-time ranges
    | Frequency(option: nat, ctrl: nat, frequencySeq: nat, frequencyMax: nat, frequencyMin: nat,
        unitTimeSeq: nat, unitTimeMax: nat, unitTimeMin: nat)
      // subtype 2, effect mode 1: flicker and fade-out
    | Flicker(option: nat, ctrl: nat, flickerFrequency: nat, fadeOutCurve: nat, fadeOutTimeSeq: nat,
        fadeOutTimeMax: nat, fadeOutTimeMin: nat)
      // subtype 2, effect modes 2 and 3: OLP, unit and free time
    | OverlapTiming(option: nat, ctrl: nat, mode: nat, olpSeq: nat, olpMax: nat, olpMin: nat,
        unitTimeMax: nat, unitTimeMin: nat, freeTimeMax: nat, freeTimeMin: nat)
      // subtype 3: paired fades, with the literal effect mode 2
    | FadeTiming(option: nat, ctrl: nat, flickerFrequency: nat, fadeOutCurve: nat, fadeOutTimeSeq: nat,
        fadeOutTimeMax: nat, fadeOutTimeMin: nat, fadeInCurve: nat, fadeInTimeSeq: nat,
        fadeInTimeMax: nat, fadeInTimeMin: nat)

  function Subtype(m: Message): nat
  {
    match m
    case Tint(_, _, _, _, _, _, _, _, _, _, _) => 0
    case Colour(_, _, _, _, _, _, _, _, _, _, _, _) => 0
    case FreeCycle(_, _, _, _, _, _, _, _, _, _) => 1
    case FadeInCycle(_, _, _, _, _, _, _, _, _, _, _) => 1
    case OverlapCycle(_, _, _, _, _, _, _, _, _, _, _, _, _, _) => 1
    case Frequency(_, _, _, _, _, _, _, _) => 2
    case Flicker(_, _, _, _, _, _, _) => 2
    case OverlapTiming(_, _, _, _, _, _, _, _, _, _) => 2
    case FadeTiming(_, _, _, _, _, _, _, _, _, _, _) => 3
  }

  /** The two bits that select the layout within a subtype: `base_raw` or `effect_mode_raw`. */
  function Selector(m: Message): nat
  {
    match m
    case Tint(_, _, _, _, _, _, _, _, _, _, _) => 0
    case Colour(_, _, base, _, _, _, _, _, _, _, _, _) => base
    case FreeCycle(_, _, _, _, _, _, _, _, _, _) => 0
    case FadeInCycle(_, _, _, _, _, _, _, _, _, _, _) => 1
    case OverlapCycle(_, _, mode, _, _, _, _, _, _, _, _, _, _, _) => mode
    case Frequency(_, _, _, _, _, _, _, _) => 0
    case Flicker(_, _, _, _, _, _, _) => 1
    case OverlapTiming(_, _, mode, _, _, _, _, _, _, _) => mode
    case FadeTiming(_, _, _, _, _, _, _, _, _, _, _) => 2
  }

  /** The layout's own fields, then the selector and `ctrl`, in the builders' order. */
  function BodyFields(m: Message): seq<Placed>
  {
    match m
    case Tint(_, _, gmSeq, gmMax, gmMin, cctSeq, cctMax, cctMin, intensitySeq, intensityMax, intensityMin) =>
      [Placed(gmSeq, 12, 2), Placed(gmMax, 14, 7), Placed(gmMin, 21, 7), Placed(cctSeq, 28, 2),
       Placed(cctMax, 30, 10), Placed(cctMin, 40, 10), Placed(intensitySeq, 50, 2),
       Placed(intensityMax, 52, 7), Placed(intensityMin, 59, 7),
       Placed(Selector(m), 66, 2), Placed(m.ctrl, 68, 2)]
    case Colour(_, _, _, saturationSeq, saturationMax, saturationMin,
      hueSeq, hueMax, hueMin, intensitySeq, intensityMax, intensityMin) =>
      [Placed(saturationSeq, 12, 2), Placed(saturationMax, 14, 7), Placed(saturationMin, 21, 7),
       Placed(hueSeq, 28, 2), Placed(hueMax, 30, 10), Placed(hueMin, 40, 10),
       Placed(intensitySeq, 50, 2), Placed(intensityMax, 52, 7), Placed(intensityMin, 59, 7),
       Placed(Selector(m), 66, 2), Placed(m.ctrl, 68, 2)]
    case FreeCycle(_, _, freeTimeSeq, freeTimeMax, freeTimeMin,
      cycleTimeSeq, cycleTimeMax, cycleTimeMin, loopTimes, loopMode) =>
      [Placed(freeTimeSeq, 13, 2), Placed(freeTimeMax, 15, 10), Placed(freeTimeMin, 25, 10),
       Placed(cycleTimeSeq, 35, 2), Placed(cycleTimeMax, 37, 10), Placed(cycleTimeMin, 47, 10),
       Placed(loopTimes, 57, 7), Placed(loopMode, 64, 2),
       Placed(Selector(m), 66, 2), Placed(m.ctrl, 68, 2)]
    case FadeInCycle(_, _, fadeInCurve, fadeInTimeSeq, fadeInTimeMax,
      fadeInTimeMin, cycleTimeSeq, cycleTimeMax, cycleTimeMin, loopTimes, loopMode) =>
      [Placed(fadeInCurve, 11, 2), Placed(fadeInTimeSeq, 13, 2), Placed(fadeInTimeMax, 15, 10),
       Placed(fadeInTimeMin, 25, 10), Placed(cycleTimeSeq, 35, 2), Placed(cycleTimeMax, 37, 10),
       Placed(cycleTimeMin, 47, 10), Placed(loopTimes, 57, 7), Placed(loopMode, 64, 2),
       Placed(Selector(m), 66, 2), Placed(m.ctrl, 68, 2)]
    case OverlapCycle(_, _, _, unitTimeSeg, freeTimeSeg, overlapSeq, olrSeq,
      olrMax, olrMin, cycleTimeSeq, cycleTimeMax, cycleTimeMin, loopTimes, loopMode) =>
      [Placed(unitTimeSeg, 13, 2), Placed(freeTimeSeg, 15, 2), Placed(overlapSeq, 17, 2),
       Placed(olrSeq, 19, 2), Placed(olrMax, 21, 7), Placed(olrMin, 28, 7),
       Placed(cycleTimeSeq, 35, 2), Placed(cycleTimeMax, 37, 10), Placed(cycleTimeMin, 47, 10),
       Placed(loopTimes, 57, 7), Placed(loopMode, 64, 2),
       Placed(Selector(m), 66, 2), Placed(m.ctrl, 68, 2)]
    case Frequency(_, _, frequencySeq, frequencyMax, frequencyMin, unitTimeSeq, unitTimeMax, unitTimeMin) =>
      [Placed(frequencySeq, 26, 2), Placed(frequencyMax, 28, 8), Placed(frequencyMin, 36, 8),
       Placed(unitTimeSeq, 44, 2), Placed(unitTimeMax, 46, 10), Placed(unitTimeMin, 56, 10),
       Placed(Selector(m), 66, 2), Placed(m.ctrl, 68, 2)]
    case Flicker(_, _, flickerFrequency, fadeOutCurve, fadeOutTimeSeq, fadeOutTimeMax, fadeOutTimeMin) =>
      [Placed(flickerFrequency, 34, 8), Placed(fadeOutCurve, 42, 2), Placed(fadeOutTimeSeq, 44, 2),
       Placed(fadeOutTimeMax, 46, 10), Placed(fadeOutTimeMin, 56, 10),
       Placed(Selector(m), 66, 2), Placed(m.ctrl, 68, 2)]
    case OverlapTiming(_, _, _, olpSeq, olpMax, olpMin, unitTimeMax, unitTimeMin, freeTimeMax, freeTimeMin) =>
      [Placed(olpSeq, 10, 2), Placed(olpMax, 12, 7), Placed(olpMin, 19, 7),
       Placed(unitTimeMax, 26, 10), Placed(unitTimeMin, 36, 10), Placed(freeTimeMax, 46, 10),
       Placed(freeTimeMin, 56, 10),
       Placed(Selector(m), 66, 2), Placed(m.ctrl, 68, 2)]
    case FadeTiming(_, _, flickerFrequency, fadeOutCurve, fadeOutTimeSeq,
      fadeOutTimeMax, fadeOutTimeMin, fadeInCurve, fadeInTimeSeq, fadeInTimeMax, fadeInTimeMin) =>
      [Placed(flickerFrequency, 10, 8), Placed(fadeOutCurve, 18, 2), Placed(fadeOutTimeSeq, 20, 2),
       Placed(fadeOutTimeMax, 22, 10), Placed(fadeOutTimeMin, 32, 10), Placed(fadeInCurve, 42, 2),
       Placed(fadeInTimeSeq, 44, 2), Placed(fadeInTimeMax, 46, 10), Placed(fadeInTimeMin, 56, 10),
       Placed(Selector(m), 66, 2), Placed(m.ctrl, 68, 2)]
  }

  function Header(m: Message): seq<Placed>
  {
    [Placed(CMD_MANUAL_EFFECT, 72, 7), Placed(m.option, 79, 1), Placed(Subtype(m), 70, 2)]
  }

  function Fields(m: Message): seq<Placed>
  {
    Header(m) + BodyFields(m)
  }

  /** The selector names the layout the message was written for. */
  predicate SelectorMatches(m: Message)
  {
    match m
    case Colour(_, _, base, _, _, _, _, _, _, _, _, _) => base != 0
    case OverlapCycle(_, _, mode, _, _, _, _, _, _, _, _, _, _, _) => mode >= 2
    case OverlapTiming(_, _, mode, _, _, _, _, _, _, _) => mode >= 2
    case _ => true
  }

  predicate WellFormed(m: Message)
  {
    SelectorMatches(m) && forall i :: 0 <= i < |Fields(m)| ==> Fields(m)[i].Fits()
  }

  /** Every range check of the builders happens before any bit is packed. */
  function Encode(m: Message): Result<Bytes, Error>
  {
    if WellFormed(m) then Ok(Finalize(Pack(Fields(m)))) else Err(ValueError)
  }

  /** The builders themselves: they raise for exactly the ill-formed messages, and lose nothing of the others. */
  method Build(m: Message) returns (r: Result<Bytes, Error>)
    ensures r == Encode(m)
    ensures r.Ok? <==> WellFormed(m)
    ensures r.Ok? ==> Decode(r.value) == Some(m)
  {
    if !WellFormed(m) {
      return Err(ValueError);
    }
    DecodeEncode(m);
    var payload := BuildPayload(Fields(m));
    r := Ok(payload);
  }

  /** Width of the reserved field that starts at bit 8 of each layout. */
  function ReservedWidth(subtype: nat, selector: nat): nat
  {
    if subtype == 0 then 4
    else if subtype == 1 then (if selector == 1 then 3 else 5)
    else if subtype == 2 then (if selector == 0 then 18 else if selector == 1 then 26 else 2)
    else 2
  }

  function DecodeLayout(n: nat): Option<Message>
  {
    var option := Field(n, 79, 1);
    var subtype := Field(n, 70, 2);
    var selector := Field(n, 66, 2);
    var ctrl := Field(n, 68, 2);
    if Field(n, 8, ReservedWidth(subtype, selector)) != 0 then None
    else if subtype == 0 && selector == 0 then
      Some(Tint(option, ctrl, Field(n, 12, 2), Field(n, 14, 7), Field(n, 21, 7), Field(n, 28, 2),
        Field(n, 30, 10), Field(n, 40, 10), Field(n, 50, 2), Field(n, 52, 7), Field(n, 59, 7)))
    else if subtype == 0 then
      Some(Colour(option, ctrl, selector, Field(n, 12, 2), Field(n, 14, 7), Field(n, 21, 7), Field(n, 28, 2),
        Field(n, 30, 10), Field(n, 40, 10), Field(n, 50, 2), Field(n, 52, 7), Field(n, 59, 7)))
    else if subtype == 1 && selector == 0 then
      Some(FreeCycle(option, ctrl, Field(n, 13, 2), Field(n, 15, 10), Field(n, 25, 10), Field(n, 35, 2),
        Field(n, 37, 10), Field(n, 47, 10), Field(n, 57, 7), Field(n, 64, 2)))
    else if subtype == 1 && selector == 1 then
      Some(FadeInCycle(option, ctrl, Field(n, 11, 2), Field(n, 13, 2), Field(n, 15, 10), Field(n, 25, 10),
        Field(n, 35, 2), Field(n, 37, 10), Field(n, 47, 10), Field(n, 57, 7), Field(n, 64, 2)))
    else if subtype == 1 then
      Some(OverlapCycle(option, ctrl, selector, Field(n, 13, 2), Field(n, 15, 2), Field(n, 17, 2), Field(n, 19, 2),
        Field(n, 21, 7), Field(n, 28, 7), Field(n, 35, 2), Field(n, 37, 10), Field(n, 47, 10),
        Field(n, 57, 7), Field(n, 64, 2)))
    else if subtype == 2 && selector == 0 then
      Some(Frequency(option, ctrl, Field(n, 26, 2), Field(n, 28, 8), Field(n, 36, 8), Field(n, 44, 2),
        Field(n, 46, 10), Field(n, 56, 10)))
    else if subtype == 2 && selector == 1 then
      Some(Flicker(option, ctrl, Field(n, 34, 8), Field(n, 42, 2), Field(n, 44, 2), Field(n, 46, 10),
        Field(n, 56, 10)))
    else if subtype == 2 then
      Some(OverlapTiming(option, ctrl, selector, Field(n, 10, 2), Field(n, 12, 7), Field(n, 19, 7), Field(n, 26, 10),
        Field(n, 36, 10), Field(n, 46, 10), Field(n, 56, 10)))
    else if selector == 2 then
      Some(FadeTiming(option, ctrl, Field(n, 10, 8), Field(n, 18, 2), Field(n, 20, 2), Field(n, 22, 10),
        Field(n, 32, 10), Field(n, 42, 2), Field(n, 44, 2), Field(n, 46, 10), Field(n, 56, 10)))
    else None
  }

  function Decode(payload: Bytes): Option<Message>
  {
    if |payload| != 10 || payload[0] != Checksum(payload) || payload[9] % 128 != CMD_MANUAL_EFFECT then None
    else DecodeLayout(FromLittleEndian(payload))
  }

  // ----- The bijection -----

  /** The packet integer a well-formed message is sent as. */
  function Packet(m: Message): nat
  {
    FromLittleEndian(Finalize(Pack(Fields(m))))
  }

  lemma BodyTiles0(m: Message)
    requires SelectorMatches(m) && Subtype(m) == 0
    ensures Tiles(BodyFields(m), 12, 70)
  {
  }

  lemma BodyTiles1(m: Message)
    requires SelectorMatches(m) && Subtype(m) == 1
    ensures Tiles(BodyFields(m), if Selector(m) == 1 then 11 else 13, 70)
  {
  }

  lemma BodyTiles23(m: Message)
    requires SelectorMatches(m) && Subtype(m) >= 2
    ensures Tiles(BodyFields(m), if m.Frequency? then 26 else if m.Flicker? then 34 else 10, 70)
  {
  }

  /** Each layout's fields tile the bits between its reserved field and the subtype. */
  lemma BodyTiles(m: Message)
    requires SelectorMatches(m)
    ensures Tiles(BodyFields(m), 8 + ReservedWidth(Subtype(m), Selector(m)), 70)
  {
    if Subtype(m) == 0 {
      BodyTiles0(m);
    } else if Subtype(m) == 1 {
      BodyTiles1(m);
    } else {
      BodyTiles23(m);
    }
  }

  lemma LayoutDisjoint(m: Message)
    requires SelectorMatches(m)
    ensures PairwiseDisjoint(Fields(m))
    ensures forall i :: 0 <= i < |Fields(m)| ==>
      8 + ReservedWidth(Subtype(m), Selector(m)) <= Fields(m)[i].start && Fields(m)[i].End() <= 80
  {
    BodyTiles(m);
    TilesDisjoint(BodyFields(m), 8 + ReservedWidth(Subtype(m), Selector(m)), 70);
    JoinDisjoint(BodyFields(m), Header(m), 70);
  }

  /** Every field of a sent packet reads back its value, and the reserved bits read zero. */
  lemma PacketReads(m: Message)
    requires WellFormed(m)
    ensures forall i :: 0 <= i < |Fields(m)| ==>
      Field(Packet(m), Fields(m)[i].start, Fields(m)[i].width) == Fields(m)[i].value
    ensures Field(Packet(m), 8, ReservedWidth(Subtype(m), Selector(m))) == 0
  {
    hide BodyFields, Field, Pack, Finalize;
    var fields := Fields(m);
    LayoutDisjoint(m);
    PackBound(fields, 80);
    SpaceIsPow2(10);
    BuiltReads(fields);
    PackMiss(fields, 8, ReservedWidth(Subtype(m), Selector(m)));
    FinalizeKeepsFields(Pack(fields), 8, ReservedWidth(Subtype(m), Selector(m)));
  }

  lemma HeaderReads(m: Message)
    requires WellFormed(m)
    ensures Field(Packet(m), 72, 7) == CMD_MANUAL_EFFECT
    ensures Field(Packet(m), 79, 1) == m.option
    ensures Field(Packet(m), 70, 2) == Subtype(m)
    ensures forall i :: 0 <= i < |BodyFields(m)| ==>
      Field(Packet(m), BodyFields(m)[i].start, BodyFields(m)[i].width) == BodyFields(m)[i].value
  {
    PacketReads(m);
    var fields := Fields(m);
    assert fields[0] == Header(m)[0] && fields[1] == Header(m)[1] && fields[2] == Header(m)[2];
    forall i | 0 <= i < |BodyFields(m)|
      ensures Field(Packet(m), BodyFields(m)[i].start, BodyFields(m)[i].width) == BodyFields(m)[i].value
    {
      assert fields[i + 3] == BodyFields(m)[i];
    }
  }

  lemma DecodeEncodeColour(m: Message)
    requires WellFormed(m) && (m.Tint? || m.Colour?)
    ensures Decode(Finalize(Pack(Fields(m)))) == Some(m)
  {
    HeaderReads(m);
    PacketReads(m);
    CommandBits(Finalize(Pack(Fields(m))));
    var b := BodyFields(m);
    match m
    case Tint(_, _, _, _, _, _, _, _, _, _, _) =>
      assert b[0].start == 12 && b[1].start == 14 && b[2].start == 21 && b[3].start == 28 &&
        b[4].start == 30 && b[5].start == 40 && b[6].start == 50 && b[7].start == 52 &&
        b[8].start == 59 && b[9].start == 66 && b[10].start == 68;
    case Colour(_, _, _, _, _, _, _, _, _, _, _, _) =>
      assert b[0].start == 12 && b[1].start == 14 && b[2].start == 21 && b[3].start == 28 &&
        b[4].start == 30 && b[5].start == 40 && b[6].start == 50 && b[7].start == 52 &&
        b[8].start == 59 && b[9].start == 66 && b[10].start == 68;
    case _ =>
  }

  lemma DecodeEncodeCycle(m: Message)
    requires WellFormed(m) && (m.FreeCycle? || m.FadeInCycle? || m.OverlapCycle?)
    ensures Decode(Finalize(Pack(Fields(m)))) == Some(m)
  {
    HeaderReads(m);
    PacketReads(m);
    CommandBits(Finalize(Pack(Fields(m))));
    var b := BodyFields(m);
    match m
    case FreeCycle(_, _, _, _, _, _, _, _, _, _) =>
      assert b[0].start == 13 && b[1].start == 15 && b[2].start == 25 && b[3].start == 35 &&
        b[4].start == 37 && b[5].start == 47 && b[6].start == 57 && b[7].start == 64 &&
        b[8].start == 66 && b[9].start == 68;
    case FadeInCycle(_, _, _, _, _, _, _, _, _, _, _) =>
      assert b[0].start == 11 && b[1].start == 13 && b[2].start == 15 && b[3].start == 25 &&
        b[4].start == 35 && b[5].start == 37 && b[6].start == 47 && b[7].start == 57 &&
        b[8].start == 64 && b[9].start == 66 && b[10].start == 68;
    case OverlapCycle(_, _, _, _, _, _, _, _, _, _, _, _, _, _) =>
      assert b[0].start == 13 && b[1].start == 15 && b[2].start == 17 && b[3].start == 19 &&
        b[4].start == 21 && b[5].start == 28 && b[6].start == 35 && b[7].start == 37 &&
        b[8].start == 47 && b[9].start == 57 && b[10].start == 64 && b[11].start == 66 &&
        b[12].start == 68;
    case _ =>
  }

  lemma DecodeEncodeFlicker(m: Message)
    requires WellFormed(m) && (m.Frequency? || m.Flicker?)
    ensures Decode(Finalize(Pack(Fields(m)))) == Some(m)
  {
    HeaderReads(m);
    PacketReads(m);
    CommandBits(Finalize(Pack(Fields(m))));
    var b := BodyFields(m);
    match m
    case Frequency(_, _, _, _, _, _, _, _) =>
      assert b[0].start == 26 && b[1].start == 28 && b[2].start == 36 && b[3].start == 44 &&
        b[4].start == 46 && b[5].start == 56 && b[6].start == 66 && b[7].start == 68;
    case Flicker(_, _, _, _, _, _, _) =>
      assert b[0].start == 34 && b[1].start == 42 && b[2].start == 44 && b[3].start == 46 &&
        b[4].start == 56 && b[5].start == 66 && b[6].start == 68;
    case _ =>
  }

  lemma DecodeEncodeTiming(m: Message)
    requires WellFormed(m) && (m.OverlapTiming? || m.FadeTiming?)
    ensures Decode(Finalize(Pack(Fields(m)))) == Some(m)
  {
    HeaderReads(m);
    PacketReads(m);
    CommandBits(Finalize(Pack(Fields(m))));
    var b := BodyFields(m);
    match m
    case OverlapTiming(_, _, _, _, _, _, _, _, _, _) =>
      assert b[0].start == 10 && b[1].start == 12 && b[2].start == 19 && b[3].start == 26 &&
        b[4].start == 36 && b[5].start == 46 && b[6].start == 56 && b[7].start == 66 &&
        b[8].start == 68;
    case FadeTiming(_, _, _, _, _, _, _, _, _, _, _) =>
      assert b[0].start == 10 && b[1].start == 18 && b[2].start == 20 && b[3].start == 22 &&
        b[4].start == 32 && b[5].start == 42 && b[6].start == 44 && b[7].start == 46 &&
        b[8].start == 56 && b[9].start == 66 && b[10].start == 68;
    case _ =>
  }

  /** Decoding what was built returns the message, for every layout. */
  lemma DecodeEncode(m: Message)
    requires WellFormed(m)
    ensures Decode(Finalize(Pack(Fields(m)))) == Some(m)
  {
    hide WellFormed, Decode, Finalize, Pack, Fields;
    if m.Tint? || m.Colour? {
      DecodeEncodeColour(m);
    } else if m.FreeCycle? || m.FadeInCycle? || m.OverlapCycle? {
      DecodeEncodeCycle(m);
    } else if m.Frequency? || m.Flicker? {
      DecodeEncodeFlicker(m);
    } else {
      DecodeEncodeTiming(m);
    }
  }

  /** What `DecodeLayout` puts in each field is what the packet holds there. */
  lemma DecodedReads(n: nat, m: Message)
    requires DecodeLayout(n) == Some(m)
    ensures SelectorMatches(m)
    ensures Field(n, 79, 1) == m.option && Field(n, 70, 2) == Subtype(m)
    ensures Field(n, 8, ReservedWidth(Subtype(m), Selector(m))) == 0
    ensures forall i :: 0 <= i < |BodyFields(m)| ==>
      Field(n, BodyFields(m)[i].start, BodyFields(m)[i].width) == BodyFields(m)[i].value
  {
    TwoBits(n);
  }

  lemma TwoBits(n: nat)
    ensures Field(n, 70, 2) < 4 && Field(n, 66, 2) < 4
  {
    LowBound(Shr(n, 70), 2);
    LowBound(Shr(n, 66), 2);
    assert Pow2(2) == 4;
  }

  /** Every decoded message passes the builders' range checks. */
  lemma DecodedWellFormed(payload: Bytes, m: Message)
    requires Decode(payload) == Some(m)
    ensures WellFormed(m)
  {
    var n := FromLittleEndian(payload);
    DecodedReads(n, m);
    CommandBits(payload);
    var fields := Fields(m);
    forall i | 0 <= i < |fields| ensures fields[i].Fits() {
      if i < 3 {
        assert fields[i] == Header(m)[i];
      } else {
        assert fields[i] == BodyFields(m)[i - 3];
      }
      LowBound(Shr(n, fields[i].start), fields[i].width);
      assert fields[i].value == Field(n, fields[i].start, fields[i].width);
    }
  }

  /** Everything the decoder looks at, reserved field and header included. */
  function TilesOf(m: Message): seq<Placed>
  {
    [Placed(0, 8, ReservedWidth(Subtype(m), Selector(m)))] + BodyFields(m)
    + [Placed(0, 70, 2), Placed(0, 72, 7), Placed(0, 79, 1)]
  }

  /** It leaves out no bit of the packet above the checksum. */
  lemma TilesCover(m: Message)
    requires SelectorMatches(m)
    ensures Tiles(TilesOf(m), 8, 80)
  {
    BodyTiles(m);
    hide BodyFields, ReservedWidth, Selector, Subtype, SelectorMatches;
    var body, tiles := BodyFields(m), TilesOf(m);
    assert tiles[1] == body[0] && tiles[|body|] == body[|body| - 1];
    forall i | 0 <= i < |tiles| - 1 ensures tiles[i].End() == tiles[i + 1].start {
      if 1 <= i < |body| {
        assert tiles[i] == body[i - 1] && tiles[i + 1] == body[i - 1 + 1];
      }
    }
  }

  lemma TilesAgreeAt(n: nat, m: Message)
    requires Field(n, 8, ReservedWidth(Subtype(m), Selector(m))) == 0
             && Field(Packet(m), 8, ReservedWidth(Subtype(m), Selector(m))) == 0
    requires Field(n, 70, 2) == Field(Packet(m), 70, 2) && Field(n, 72, 7) == Field(Packet(m), 72, 7)
             && Field(n, 79, 1) == Field(Packet(m), 79, 1)
    requires forall i :: 0 <= i < |BodyFields(m)| ==>
      Field(n, BodyFields(m)[i].start, BodyFields(m)[i].width)
      == Field(Packet(m), BodyFields(m)[i].start, BodyFields(m)[i].width)
    ensures Agree(n, Packet(m), TilesOf(m))
  {
    hide BodyFields, ReservedWidth, Selector, Subtype, Field, Packet;
    var body, tiles := BodyFields(m), TilesOf(m);
    forall i | 0 <= i < |tiles|
      ensures Field(n, tiles[i].start, tiles[i].width) == Field(Packet(m), tiles[i].start, tiles[i].width)
    {
      if 1 <= i <= |body| {
        assert tiles[i] == body[i - 1];
      }
    }
  }

  /** And an accepted packet holds there what its message is packed to. */
  lemma TilesAgree(payload: Bytes, m: Message)
    requires Decode(payload) == Some(m) && WellFormed(m)
    ensures Agree(FromLittleEndian(payload), Packet(m), TilesOf(m))
  {
    var n := FromLittleEndian(payload);
    DecodedReads(n, m);
    CommandBits(payload);
    HeaderReads(m);
    PacketReads(m);
    hide BodyFields, ReservedWidth, Selector, Subtype, Field, DecodeLayout, Packet, WellFormed, TilesOf, Agree;
    TilesAgreeAt(n, m);
  }

  /** Re-encoding an accepted packet returns exactly its ten bytes. */
  lemma EncodeDecode(payload: Bytes, m: Message)
    requires Decode(payload) == Some(m)
    ensures Encode(m) == Ok(payload)
  {
    DecodedWellFormed(payload, m);
    TilesCover(m);
    TilesAgree(payload, m);
    hide TilesOf, Tiles, Agree, DecodeLayout, Field, Fields, Pack, Finalize, Checksum, FromLittleEndian;
    TilingDetermines(FromLittleEndian(payload), Packet(m), TilesOf(m), 8, 80);
    PayloadDetermined(payload, m);
  }

  lemma PayloadDetermined(payload: Bytes, m: Message)
    requires |payload| == 10 && payload[0] == Checksum(payload)
    requires Field(FromLittleEndian(payload), 8, 72) == Field(Packet(m), 8, 72)
    ensures payload == Finalize(Pack(Fields(m)))
  {
    hide Fields, Field, Pack, FromLittleEndian;
    ChecksummedDetermined(payload, Finalize(Pack(Fields(m))));
  }

  /**
   The codec is a bijection between the messages the builders accept and the packets the
   decoder accepts: each is the other's image under the inverse map, and nothing else is.
   */
  lemma Bijection(m: Message, payload: Bytes)
    ensures Decode(payload) == Some(m) <==> Encode(m) == Ok(payload)
  {
    if Decode(payload) == Some(m) {
      EncodeDecode(payload, m);
    }
    if Encode(m) == Ok(payload) {
      DecodeEncode(m);
    }
  }

}
