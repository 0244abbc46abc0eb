/** The enumerant decoders of src/parseparts.rs: `SampleSet`, `Countdown`,
    `CurveType`, `OverlayPosition` and `Effects`.  Each maps a fixed list of
    tokens and rejects every other string with an error (never a panic). */
module Tokens {
  import opened Results
  import opened Numbers
  import opened Parts

  /** The numeric token of a sample set. */
  function SampleSetCode(v: SampleSet): string
  {
    match v
    case Default => "0"
    case Normal => "1"
    case Soft => "2"
    case Drum => "3"
  }

  /** The name token of a sample set. */
  function SampleSetName(v: SampleSet): string
  {
    match v
    case Default => "Default"
    case Normal => "Normal"
    case Soft => "Soft"
    case Drum => "Drum"
  }

  /** `SampleSet::from_str`: a number 0-3 or the variant's name. */
  function ParseSampleSet(s: string): (r: Outcome<SampleSet>)
    ensures r.Ok? ==> s == SampleSetCode(r.value) || s == SampleSetName(r.value)
    ensures !r.Ok? ==> r == Err(InvalidToken(s, "SampleSet"))
  {
    match s
    case "0" => Ok(SampleSet.Default)
    case "Default" => Ok(SampleSet.Default)
    case "1" => Ok(SampleSet.Normal)
    case "Normal" => Ok(SampleSet.Normal)
    case "2" => Ok(SampleSet.Soft)
    case "Soft" => Ok(SampleSet.Soft)
    case "3" => Ok(SampleSet.Drum)
    case "Drum" => Ok(SampleSet.Drum)
    case _ => Err(InvalidToken(s, "SampleSet"))
  }

  /** Both tokens of every sample set are accepted, so together with the
      contract of `ParseSampleSet` the accepted tokens are exactly these. */
  lemma ParseSampleSetTokens(v: SampleSet)
    ensures ParseSampleSet(SampleSetCode(v)) == Ok(v)
    ensures ParseSampleSet(SampleSetName(v)) == Ok(v)
  {
    match v
    case Default =>
    case Normal =>
    case Soft =>
    case Drum =>
  }

  function CountdownCode(v: Countdown): string
  {
    match v
    case NoCountdown => "0"
    case Normal => "1"
    case Half => "2"
    case Double => "3"
  }

  /** `Countdown::from_str`: exactly the digits 0-3. */
  function ParseCountdown(s: string): (r: Outcome<Countdown>)
    ensures r.Ok? ==> s == CountdownCode(r.value)
    ensures !r.Ok? ==> r == Err(InvalidToken(s, "Countdown"))
  {
    match s
    case "0" => Ok(NoCountdown)
    case "1" => Ok(Countdown.Normal)
    case "2" => Ok(Half)
    case "3" => Ok(Double)
    case _ => Err(InvalidToken(s, "Countdown"))
  }

  lemma ParseCountdownCode(v: Countdown)
    ensures ParseCountdown(CountdownCode(v)) == Ok(v)
  {
    match v
    case NoCountdown =>
    case Normal =>
    case Half =>
    case Double =>
  }

  function CurveTypeCode(v: CurveType): string
  {
    match v
    case Bezier => "B"
    case Centripetal => "C"
    case Linear => "L"
    case Perfect => "P"
  }

  /** `CurveType::from_str`: exactly the letters B, C, L and P. */
  function ParseCurveType(s: string): (r: Outcome<CurveType>)
    ensures r.Ok? ==> s == CurveTypeCode(r.value)
    ensures !r.Ok? ==> r == Err(InvalidToken(s, "CurveType"))
  {
    match s
    case "B" => Ok(Bezier)
    case "C" => Ok(Centripetal)
    case "L" => Ok(Linear)
    case "P" => Ok(Perfect)
    case _ => Err(InvalidToken(s, "CurveType"))
  }

  lemma ParseCurveTypeCode(v: CurveType)
    ensures ParseCurveType(CurveTypeCode(v)) == Ok(v)
  {
    match v
    case Bezier =>
    case Centripetal =>
    case Linear =>
    case Perfect =>
  }

  function OverlayPositionName(v: OverlayPosition): string
  {
    match v
    case NoChange => "NoChange"
    case Below => "Below"
    case Above => "Above"
  }

  /** `OverlayPosition::from_str`: exactly the three variant names. */
  function ParseOverlayPosition(s: string): (r: Outcome<OverlayPosition>)
    ensures r.Ok? ==> s == OverlayPositionName(r.value)
    ensures !r.Ok? ==> r == Err(InvalidToken(s, "OverlayPosition"))
  {
    match s
    case "NoChange" => Ok(NoChange)
    case "Below" => Ok(Below)
    case "Above" => Ok(Above)
    case _ => Err(InvalidToken(s, "OverlayPosition"))
  }

  lemma ParseOverlayPositionName(v: OverlayPosition)
    ensures ParseOverlayPosition(OverlayPositionName(v)) == Ok(v)
  {
    match v
    case NoChange =>
    case Below =>
    case Above =>
  }

  /** `Effects::from_str`: the tokens 0, 1, 4 and 5 only; the flags are the
      bits of value 1 (kiai) and 4 (omit first barline) of the token. */
  function ParseEffects(s: string): (r: Outcome<Effects>)
    ensures r.Ok? <==> s in {"0", "1", "4", "5"}
    ensures r.Ok? ==> (r.value.kiai <==> s == "1" || s == "5")
    ensures r.Ok? ==> (r.value.ommitBarline <==> s == "4" || s == "5")
    ensures !r.Ok? ==> r == Err(InvalidToken(s, "Effects"))
  {
    match s
    case "0" => Ok(Effects(false, false))
    case "1" => Ok(Effects(true, false))
    case "4" => Ok(Effects(false, true))
    case "5" => Ok(Effects(true, true))
    case _ => Err(InvalidToken(s, "Effects"))
  }

  /** The flags decoded from a token are the flags of the number it
      spells, and every pair of flags is decoded from its own number. */
  lemma ParseEffectsValue(s: string)
    requires ParseEffects(s).Ok?
    ensures ParseU8(s) == Some(EffectsValue(ParseEffects(s).value))
  {
  }

  lemma ParseEffectsShow(e: Effects)
    ensures ParseEffects(ShowNat(EffectsValue(e))) == Ok(e)
  {
    var v := EffectsValue(e);
    assert ShowNat(v) == [DigitChar(v)];
  }
}
