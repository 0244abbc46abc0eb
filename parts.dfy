/** The value types of src/parts.rs that the decoders build, with the two
    `Default` records defined there.  Field names follow the source
    (`ommit_barline` included), in Dafny's camel case. */
module Parts {
  import opened Results
  import opened Numbers

  datatype Background = Background(filename: string, xoffset: int, yoffset: int)

  datatype Break = Break(startTime: int, endTime: int)

  datatype Color = Color(red: Byte, green: Byte, blue: Byte)

  /** `Countdown::None` is called `NoCountdown` here, to keep it apart
      from `Option.None`. */
  datatype Countdown = NoCountdown | Normal | Half | Double

  datatype CurveType = Bezier | Centripetal | Linear | Perfect

  datatype Curve = Curve(curveType: CurveType, points: seq<(int, int)>)

  /** Timing-point effects: value 1 is kiai, value 4 omits the first
      barline; value 2 is unused. */
  datatype Effects = Effects(kiai: bool, ommitBarline: bool)

  /** The numeric encoding of the two effect flags. */
  function EffectsValue(e: Effects): (v: Byte)
    ensures v in {0, 1, 4, 5} && v % 2 == (if e.kiai then 1 else 0) && (v >= 4 <==> e.ommitBarline)
  {
    (if e.kiai then 1 else 0) + (if e.ommitBarline then 4 else 0)
  }

  datatype SampleSet = Default | Normal | Soft | Drum

  datatype HalfHitSample = HalfHitSample(normalSet: SampleSet, additionSet: SampleSet)

  /** `HalfHitSample::default()`. */
  const DefaultHalfHitSample: HalfHitSample := HalfHitSample(SampleSet.Default, SampleSet.Default)

  datatype HitSample = HitSample(normalSet: SampleSet, additionSet: SampleSet, index: int,
                                 volume: int, filename: Option<string>)

  /** `HitSample::default()`: note the volume is 0, not 100. */
  const DefaultHitSample: HitSample := HitSample(SampleSet.Default, SampleSet.Default, 0, 0, None)

  datatype HitSound = HitSound(normal: bool, whistle: bool, finish: bool, clap: bool)

  /** The four hit-sound flags as the low nibble they are read from. */
  function HitSoundValue(h: HitSound): (v: nat)
    ensures v < 16
  {
    (if h.normal then 1 else 0) + (if h.whistle then 2 else 0)
    + (if h.finish then 4 else 0) + (if h.clap then 8 else 0)
  }

  datatype OverlayPosition = NoChange | Below | Above

  datatype ObjectType = Circle | Slider | Spinner | ManiaHold

  /** A 3-bit unsigned value (`Type.color_skip`). */
  type ColorSkip = n: int | 0 <= n < 8

  datatype Type = Type(objectType: ObjectType, newCombo: bool, colorSkip: ColorSkip)
}
