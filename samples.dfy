/** `HalfHitSample::from_str` and `HitSample::from_str` of
    src/parseparts.rs: colon-separated sample-set, index, volume and file
    name fields.  A failed `split_once` is an error; a field that fails to
    decode makes an `.expect` panic. */
module Samples {
  import opened Results
  import opened Text
  import opened Numbers
  import opened Parts
  import opened Tokens

  /** `HalfHitSample::from_str`: exactly one colon, then two sample sets. */
  function ParseHalfHitSample(s: string): (r: Outcome<HalfHitSample>)
    ensures r.Err? <==> Count(s, ':') != 1
    ensures r.Err? ==> r.error == InvalidToken(s, "HalfHitSample")
  {
    if Count(s, ':') != 1 then Err(InvalidToken(s, "HalfHitSample"))
    else
      var values := Split(s, ':');
      match (ParseSampleSet(values[0]), if |values| > 1 then ParseSampleSet(values[1]) else Panic)
      case (Ok(normalSet), Ok(additionSet)) => Ok(HalfHitSample(normalSet, additionSet))
      case _ => Panic
  }

  /** With one colon, the two halves are the two sample sets, and a half
      that is not a sample set panics. */
  lemma ParseHalfHitSampleParts(a: string, b: string)
    requires ':' !in a && ':' !in b
    ensures ParseHalfHitSample(a + ":" + b) ==
      match (ParseSampleSet(a), ParseSampleSet(b))
      case (Ok(normalSet), Ok(additionSet)) => Ok(HalfHitSample(normalSet, additionSet))
      case _ => Panic
  {
    var s := a + ":" + b;
    SplitAppend(a, b, ':');
    SplitNoDelimiter(b, ':');
    CountAppend(a + ":", b, ':');
    CountAppend(a, ":", ':');
  }

  /** Every pair of sample sets decodes from its numeric form, and the
      default is the decoding of "0:0". */
  lemma ParseHalfHitSampleCodes(normalSet: SampleSet, additionSet: SampleSet)
    ensures ParseHalfHitSample(SampleSetCode(normalSet) + ":" + SampleSetCode(additionSet))
         == Ok(HalfHitSample(normalSet, additionSet))
    ensures ParseHalfHitSample("0:0") == Ok(DefaultHalfHitSample)
  {
    ParseSampleSetTokens(normalSet);
    ParseSampleSetTokens(additionSet);
    ParseHalfHitSampleParts(SampleSetCode(normalSet), SampleSetCode(additionSet));
    ParseHalfHitSampleParts("0", "0");
    assert "0" + ":" + "0" == "0:0";
  }

  /** What `HitSample::from_str` computes, stated on the colon-separated
      pieces `p` of the token `s`: the first three pieces are the two sample
      sets and the index, read in that order, each failing with an error
      when its colon is missing and with a panic when it does not decode.
      With more than three colons the fourth piece is the volume and the
      rest of the token, colons included, is the file name unless it is
      blank.  Each stage below reads one piece. */
  function HitSampleOf(s: string): (r: Outcome<HitSample>)
    ensures r.Err? ==> r.error == SplitError(s, ':')
  {
    HitSampleOfPieces(Split(s, ':'), s)
  }

  function HitSampleOfPieces(p: seq<string>, s: string): (r: Outcome<HitSample>)
    requires |p| >= 1
    ensures r.Err? ==> r.error == SplitError(s, ':')
  {
    if |p| == 1 then Err(SplitError(s, ':'))
    else match ParseSampleSet(p[0])
    case Ok(normalSet) => WithNormalSet(p[1..], s, normalSet)
    case _ => Panic
  }

  function WithNormalSet(p: seq<string>, s: string, normalSet: SampleSet): (r: Outcome<HitSample>)
    requires |p| >= 1
    ensures r.Err? ==> r.error == SplitError(s, ':')
  {
    if |p| == 1 then Err(SplitError(s, ':'))
    else match ParseSampleSet(p[0])
    case Ok(additionSet) => WithSampleSets(p[1..], s, normalSet, additionSet)
    case _ => Panic
  }

  function WithSampleSets(p: seq<string>, s: string, normalSet: SampleSet, additionSet: SampleSet): (r: Outcome<HitSample>)
    requires |p| >= 1
    ensures r.Err? ==> r.error == SplitError(s, ':')
  {
    if |p| == 1 then Err(SplitError(s, ':'))
    else match ParseI64(p[0])
    case Some(index) => WithIndex(p[1..], normalSet, additionSet, index)
    case None => Panic
  }

  /** After the third colon: one more piece leaves the defaults; more pieces
      give the volume and the file name. */
  function WithIndex(p: seq<string>, normalSet: SampleSet, additionSet: SampleSet, index: int): (r: Outcome<HitSample>)
    requires |p| >= 1
    ensures !r.Err?
  {
    if |p| == 1 then Ok(HitSample(normalSet, additionSet, index, 0, None))
    else match ParseI64(p[0])
    case Some(volume) =>
      var rest := Join(p[1..], ':');
      Ok(HitSample(normalSet, additionSet, index, volume, if Trim(rest) != [] then Some(rest) else None))
    case None => Panic
  }

  /** Fewer than three colons never decode, an error is always a missing
      colon, and exactly three colons leave volume 0 and no file name. */
  lemma HitSampleColons(s: string)
    ensures Count(s, ':') < 3 ==> !HitSampleOf(s).Ok?
    ensures HitSampleOf(s).Err? ==> HitSampleOf(s) == Err(SplitError(s, ':')) && Count(s, ':') < 3
    ensures HitSampleOf(s).Ok? && Count(s, ':') == 3 ==>
      HitSampleOf(s).value.volume == 0 && HitSampleOf(s).value.filename == None
  {
    SplitFacts(s, ':');
  }

  /** The decoder as written: `values` is re-split with `split_once` up to
      four times, and `volume` and `filename` start at 0 and `None`. */
  method DecodeHitSample(s: string) returns (r: Outcome<HitSample>)
    ensures r == HitSampleOf(s)
  {
    var volume := 0;
    var filename: Option<string> := None;
    var values := SplitOnce(s, ':');
    if values.None? {
      SplitNoDelimiter(s, ':');
      return Err(SplitError(s, ':'));
    }
    var rest1 := values.value.1;
    StageNormalSet(values.value.0, rest1, s);
    SplitOnceSplit(s, ':');
    var normal := ParseSampleSet(values.value.0);
    if !normal.Ok? {
      return Panic;
    }
    var normalSet := normal.value;
    values := SplitOnce(rest1, ':');
    if values.None? {
      SplitNoDelimiter(rest1, ':');
      return Err(SplitError(s, ':'));
    }
    var rest2 := values.value.1;
    StageAdditionSet(values.value.0, rest2, s, normalSet);
    SplitOnceSplit(rest1, ':');
    var addition := ParseSampleSet(values.value.0);
    if !addition.Ok? {
      return Panic;
    }
    var additionSet := addition.value;
    values := SplitOnce(rest2, ':');
    if values.None? {
      SplitNoDelimiter(rest2, ':');
      return Err(SplitError(s, ':'));
    }
    var rest3 := values.value.1;
    StageIndex(values.value.0, rest3, s, normalSet, additionSet);
    SplitOnceSplit(rest2, ':');
    var indexOf := ParseI64(values.value.0);
    if indexOf.None? {
      return Panic;
    }
    var index := indexOf.value;
    SplitFacts(rest3, ':');
    if Count(s, ':') > 3 {
      values := SplitOnce(rest3, ':');
      if values.None? {
        // unreachable: more than three colons leave one in the third tail
        return Err(SplitError(s, ':'));
      }
      StageVolume(values.value.0, values.value.1, normalSet, additionSet, index);
      var volumeOf := ParseI64(values.value.0);
      if volumeOf.None? {
        return Panic;
      }
      volume := volumeOf.value;
    } else {
      SplitNoDelimiter(rest3, ':');
    }
    if Count(s, ':') > 3 && Trim(values.value.1) != [] {
      filename := Some(values.value.1);
    }
    r := Ok(HitSample(normalSet, additionSet, index, volume, filename));
  }

  /** With four colons or more the fields are the pieces in order, and the
      file name is the whole untrimmed tail after the fourth colon, kept
      only when it is not blank. */
  lemma HitSampleFields(a: string, b: string, c: string, d: string, e: string)
    requires ':' !in a && ':' !in b && ':' !in c && ':' !in d
    requires ParseSampleSet(a).Ok? && ParseSampleSet(b).Ok? && ParseI64(c).Some? && ParseI64(d).Some?
    ensures HitSampleOf(a + ":" + b + ":" + c + ":" + d + ":" + e) ==
      Ok(HitSample(ParseSampleSet(a).value, ParseSampleSet(b).value, ParseI64(c).value, ParseI64(d).value,
                   if Trim(e) != [] then Some(e) else None))
  {
    var t3 := d + [':'] + e;
    var t2 := c + [':'] + t3;
    var t1 := b + [':'] + t2;
    var s := a + [':'] + t1;
    Nested(a, b, c, d, e, ':');
    var normalSet, additionSet := ParseSampleSet(a).value, ParseSampleSet(b).value;
    var index := ParseI64(c).value;
    StageNormalSet(a, t1, s);
    StageAdditionSet(b, t2, s, normalSet);
    StageIndex(c, t3, s, normalSet, additionSet);
    StageVolume(d, e, normalSet, additionSet, index);
  }

  /** Each stage of `HitSampleOf` reads the piece before the next colon. */
  lemma StageNormalSet(a: string, t: string, s: string)
    requires ':' !in a
    ensures HitSampleOfPieces(Split(a + [':'] + t, ':'), s) ==
      if ParseSampleSet(a).Ok? then WithNormalSet(Split(t, ':'), s, ParseSampleSet(a).value) else Panic
  {
    SplitStep(a, t, ':');
  }

  lemma StageAdditionSet(b: string, t: string, s: string, normalSet: SampleSet)
    requires ':' !in b
    ensures WithNormalSet(Split(b + [':'] + t, ':'), s, normalSet) ==
      if ParseSampleSet(b).Ok? then WithSampleSets(Split(t, ':'), s, normalSet, ParseSampleSet(b).value) else Panic
  {
    SplitStep(b, t, ':');
  }

  lemma StageIndex(c: string, t: string, s: string, normalSet: SampleSet, additionSet: SampleSet)
    requires ':' !in c
    ensures WithSampleSets(Split(c + [':'] + t, ':'), s, normalSet, additionSet) ==
      if ParseI64(c).Some? then WithIndex(Split(t, ':'), normalSet, additionSet, ParseI64(c).value) else Panic
  {
    SplitStep(c, t, ':');
  }

  lemma StageVolume(d: string, e: string, normalSet: SampleSet, additionSet: SampleSet, index: int)
    requires ':' !in d
    ensures WithIndex(Split(d + [':'] + e, ':'), normalSet, additionSet, index) ==
      if ParseI64(d).Some?
      then Ok(HitSample(normalSet, additionSet, index, ParseI64(d).value, if Trim(e) != [] then Some(e) else None))
      else Panic
  {
    SplitStep(d, e, ':');
    SplitFacts(e, ':');
  }

  /** With exactly three colons the text after the third one is never read:
      the volume stays 0 (even when that text is a number) and there is no
      file name. */
  lemma HitSampleThreeColons(a: string, b: string, c: string, d: string)
    requires ':' !in a && ':' !in b && ':' !in c && ':' !in d
    requires ParseSampleSet(a).Ok? && ParseSampleSet(b).Ok? && ParseI64(c).Some?
    ensures HitSampleOf(a + ":" + b + ":" + c + ":" + d) ==
      Ok(HitSample(ParseSampleSet(a).value, ParseSampleSet(b).value, ParseI64(c).value, 0, None))
  {
    var t2 := c + [':'] + d;
    var t1 := b + [':'] + t2;
    var s := a + [':'] + t1;
    Nested(a, b, c, d, [], ':');
    var normalSet, additionSet := ParseSampleSet(a).value, ParseSampleSet(b).value;
    StageNormalSet(a, t1, s);
    StageAdditionSet(b, t2, s, normalSet);
    StageIndex(c, d, s, normalSet, additionSet);
    SplitNoDelimiter(d, ':');
  }

  /** The default hit sample is the decoding of "0:0:0:" and of "0:0:0:0:"
      (written as concatenations so that the solver does not evaluate the
      literal piece by piece). */
  lemma HitSampleDefault()
    ensures HitSampleOf("0" + ":" + "0" + ":" + "0" + ":" + "") == Ok(DefaultHitSample)
    ensures HitSampleOf("0" + ":" + "0" + ":" + "0" + ":" + "0" + ":" + "") == Ok(DefaultHitSample)
  {
    assert ParseSampleSet("0") == Ok(SampleSet.Default);
    assert ParseI64("0") == Some(0);
    HitSampleThreeColons("0", "0", "0", "");
    HitSampleFields("0", "0", "0", "0", "");
  }
}
