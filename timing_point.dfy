/** The timing-point record of src/collections/timing_point.rs, the default
    record its decoder starts from, and `TimingPoint::from_str` of
    src/parseparts.rs, which reads 2, 6, 7 or 8 comma-separated fields. */
module TimingPoints {
  import opened Results
  import opened Text
  import opened Numbers
  import opened Parts
  import opened Tokens

  /** `beat_length` is an `f64` in the source; it is kept here as the text
      of its token, since floating point is not modelled. */
  datatype TimingPoint = TimingPoint(time: int, beatLength: string, meter: int, sampleSet: SampleSet,
                                     sampleIndex: int, volume: int, uninherited: bool, effects: Effects)

  /** `TimingPoint::default()`; its `beat_length` 0.0 is written "0.0". */
  const DefaultTimingPoint: TimingPoint :=
    TimingPoint(0, "0.0", 4, SampleSet.Default, 0, 100, true, Effects(false, false))

  /** `TimingPoint::from_str`: the number of commas picks the branch (1, 5,
      6 or 7; any other count is an error).  Each branch reads its fields in
      order and leaves the rest at their defaults; a field that does not
      decode panics.  `uninherited` is whether its token is the integer 1. */
  function TimingPointOf(s: string): (r: Outcome<TimingPoint>)
    ensures r.Err? ==> r.error == WrongArity(s, Count(s, ','))
  {
    var commas := Count(s, ',');
    if commas != 1 && commas != 5 && commas != 6 && commas != 7 then Err(WrongArity(s, commas))
    else
      SplitFacts(s, ',');
      TimingPointFrom(Split(s, ','))
  }

  /** The fields of one branch, read in order; the others keep their
      defaults. */
  function TimingPointFrom(fields: seq<string>): (r: Outcome<TimingPoint>)
    requires |fields| == 2 || |fields| == 6 || |fields| == 7 || |fields| == 8
    ensures !r.Err?
  {
    var time := ParseI64(fields[0]);
    if time.None? then Panic
    else if |fields| == 2 then
      Ok(DefaultTimingPoint.(time := time.value, beatLength := fields[1]))
    else
      var meter := ParseI64(fields[2]);
      var sampleSet := ParseSampleSet(fields[3]);
      var sampleIndex := ParseI64(fields[4]);
      var volume := ParseI64(fields[5]);
      var uninherited := if |fields| >= 7 then ParseI64(fields[6]) else Some(1);
      var effects := if |fields| == 8 then ParseEffects(fields[7]) else Ok(DefaultTimingPoint.effects);
      if meter.Some? && sampleSet.Ok? && sampleIndex.Some? && volume.Some? && uninherited.Some? && effects.Ok? then
        var read := TimingPoint(time.value, fields[1], meter.value, sampleSet.value, sampleIndex.value,
                                volume.value, uninherited.value == 1, effects.value);
        Ok(if |fields| >= 7 then read else read.(uninherited := DefaultTimingPoint.uninherited))
      else Panic
  }

  /** The constants of the default record. */
  lemma DefaultTimingPointFields()
    ensures DefaultTimingPoint.time == 0 && DefaultTimingPoint.sampleSet == SampleSet.Default
    ensures DefaultTimingPoint.sampleIndex == 0 && DefaultTimingPoint.meter == 4
    ensures DefaultTimingPoint.volume == 100 && DefaultTimingPoint.uninherited
    ensures !DefaultTimingPoint.effects.kiai && !DefaultTimingPoint.effects.ommitBarline
  {
  }

  /** The only error: a comma count other than 1, 5, 6 or 7, which is
      reported. */
  lemma TimingPointArity(s: string)
    ensures var commas := Count(s, ',');
      TimingPointOf(s).Err? <==> commas != 1 && commas != 5 && commas != 6 && commas != 7
    ensures TimingPointOf(s).Err? ==> TimingPointOf(s).error == WrongArity(s, Count(s, ','))
  {
  }

  /** What a decoded timing point holds: the fields its branch reads, in
      order, and the defaults for the others. */
  lemma TimingPointFields(s: string)
    requires TimingPointOf(s).Ok?
    ensures var commas := Count(s, ','); var fields := Split(s, ','); var v := TimingPointOf(s).value;
      && |fields| == commas + 1
      && ParseI64(fields[0]) == Some(v.time) && v.beatLength == fields[1]
      && (commas == 1 ==> v == DefaultTimingPoint.(time := v.time, beatLength := v.beatLength))
      && (commas >= 5 ==>
           ParseI64(fields[2]) == Some(v.meter) && ParseSampleSet(fields[3]) == Ok(v.sampleSet) &&
           ParseI64(fields[4]) == Some(v.sampleIndex) && ParseI64(fields[5]) == Some(v.volume))
      && (commas == 5 ==> v.uninherited == DefaultTimingPoint.uninherited)
      && (commas >= 6 ==> ParseI64(fields[6]).Some? && (v.uninherited <==> ParseI64(fields[6]) == Some(1)))
      && (commas <= 6 ==> v.effects == DefaultTimingPoint.effects)
      && (commas == 7 ==> ParseEffects(fields[7]) == Ok(v.effects))
  {
    SplitFacts(s, ',');
  }

  /** The eight fields of a timing point written out: numbers in decimal,
      the sample set by its number, `uninherited` as 1 or 0 and the effects
      by value. */
  function TimingPointFieldsText(p: TimingPoint): (r: seq<string>)
    ensures |r| == 8
  {
    [ShowInt(p.time), p.beatLength, ShowInt(p.meter), SampleSetCode(p.sampleSet), ShowInt(p.sampleIndex),
     ShowInt(p.volume), ShowInt(if p.uninherited then 1 else 0), ShowNat(EffectsValue(p.effects))]
  }

  function TimingPointText(p: TimingPoint): string
  {
    Join(TimingPointFieldsText(p), ',')
  }

  /** No written field holds a comma. */
  lemma FieldsTextFree(p: TimingPoint)
    requires ',' !in p.beatLength
    ensures forall i :: 0 <= i < 8 ==> ',' !in TimingPointFieldsText(p)[i]
  {
    ShowIntAvoids(p.time, ',');
    ShowIntAvoids(p.meter, ',');
    ShowIntAvoids(p.sampleIndex, ',');
    ShowIntAvoids(p.volume, ',');
    ShowIntAvoids(if p.uninherited then 1 else 0, ',');
    ShowIntAvoids(EffectsValue(p.effects), ',');
    assert ',' !in SampleSetCode(p.sampleSet);
  }

  /** Each written integer field decodes back to its value. */
  lemma FieldsTextNumbers(p: TimingPoint)
    requires InI64(p.time) && InI64(p.meter) && InI64(p.sampleIndex) && InI64(p.volume)
    ensures var f := TimingPointFieldsText(p);
      && ParseI64(f[0]) == Some(p.time) && ParseI64(f[2]) == Some(p.meter)
      && ParseI64(f[4]) == Some(p.sampleIndex) && ParseI64(f[5]) == Some(p.volume)
  {
    ParseShowI64(p.time);
    ParseShowI64(p.meter);
    ParseShowI64(p.sampleIndex);
    ParseShowI64(p.volume);
  }

  /** The written sample set, uninherited flag and effects decode back. */
  lemma FieldsTextTokens(p: TimingPoint)
    ensures var f := TimingPointFieldsText(p);
      && ParseSampleSet(f[3]) == Ok(p.sampleSet)
      && ParseI64(f[6]).Some? && (ParseI64(f[6]) == Some(1) <==> p.uninherited)
      && ParseEffects(f[7]) == Ok(p.effects)
  {
    ParseSampleSetTokens(p.sampleSet);
    ParseEffectsShow(p.effects);
    ParseShowI64(if p.uninherited then 1 else 0);
  }

  /** Every timing point whose numbers are i64 values and whose beat length
      holds no comma is decoded back from its eight-field text. */
  lemma TimingPointRoundTrip(p: TimingPoint)
    requires InI64(p.time) && InI64(p.meter) && InI64(p.sampleIndex) && InI64(p.volume)
    requires ',' !in p.beatLength
    ensures TimingPointOf(TimingPointText(p)) == Ok(p)
  {
    var s := TimingPointText(p);
    var fields := TimingPointFieldsText(p);
    FieldsTextFree(p);
    SplitJoin(fields, ',');
    SplitFacts(s, ',');
    assert TimingPointOf(s) == TimingPointFrom(fields);
    FieldsTextRead(p);
  }

  /** The eight written fields are read back as the timing point. */
  lemma FieldsTextRead(p: TimingPoint)
    requires InI64(p.time) && InI64(p.meter) && InI64(p.sampleIndex) && InI64(p.volume)
    ensures TimingPointFrom(TimingPointFieldsText(p)) == Ok(p)
  {
    FieldsTextNumbers(p);
    FieldsTextTokens(p);
  }

  /** The fields of a branch decode exactly when each field it reads does
      (the beat length is any text). */
  lemma TimingPointFromOk(f: seq<string>)
    requires |f| == 2 || |f| == 6 || |f| == 7 || |f| == 8
    ensures TimingPointFrom(f).Ok? <==>
      && ParseI64(f[0]).Some?
      && (|f| >= 6 ==>
           ParseI64(f[2]).Some? && ParseSampleSet(f[3]).Ok? && ParseI64(f[4]).Some? && ParseI64(f[5]).Some?)
      && (|f| >= 7 ==> ParseI64(f[6]).Some?)
      && (|f| == 8 ==> ParseEffects(f[7]).Ok?)
  {
  }

  /** When a timing point decodes: its comma count is 1, 5, 6 or 7 and
      every field its branch reads decodes.  Otherwise an accepted count
      panics on the first field that does not. */
  lemma TimingPointOk(s: string)
    ensures var commas := Count(s, ','); var f := Split(s, ',');
      TimingPointOf(s).Ok? <==>
        && (commas == 1 || commas == 5 || commas == 6 || commas == 7)
        && |f| == commas + 1
        && ParseI64(f[0]).Some?
        && (commas >= 5 ==>
             ParseI64(f[2]).Some? && ParseSampleSet(f[3]).Ok? && ParseI64(f[4]).Some? && ParseI64(f[5]).Some?)
        && (commas >= 6 ==> ParseI64(f[6]).Some?)
        && (commas == 7 ==> ParseEffects(f[7]).Ok?)
  {
    var commas := Count(s, ',');
    SplitFacts(s, ',');
    if commas == 1 || commas == 5 || commas == 6 || commas == 7 {
      TimingPointFromOk(Split(s, ','));
    }
  }

  /** A line whose comma pieces are known decodes from those pieces. */
  lemma TimingPointOfPieces(s: string, f: seq<string>)
    requires Split(s, ',') == f
    requires |f| == 2 || |f| == 6 || |f| == 7 || |f| == 8
    ensures TimingPointOf(s) == TimingPointFrom(f)
  {
    SplitFacts(s, ',');
  }

  /** The time both example lines share. */
  lemma Parse5000()
    ensures ParseI64("5000") == Some(5000)
  {
    assert "5000"[..3] == "500";
    assert "500"[..2] == "50";
    assert "50"[..1] == "5";
    assert DigitsValue("5000") == 5000;
  }

  /** A two-field line, `5000,500.0`: the time and the beat length, with
      every other field at its default. */
  lemma TimingPointTwoFields()
    ensures TimingPointOf(Join(["5000", "500.0"], ',')) ==
      Ok(DefaultTimingPoint.(time := 5000, beatLength := "500.0"))
  {
    var f := ["5000", "500.0"];
    assert ',' !in f[0] && ',' !in f[1];
    SplitJoin(f, ',');
    TimingPointOfPieces(Join(f, ','), f);
    Parse5000();
  }

  /** An eight-field line, `5000,500.0,3,2,1,80,0,5`: every field taken
      literally, `0` as an inherited point and effects 5 as kiai with the
      bar line omitted. */
  lemma TimingPointEightFields()
    ensures TimingPointOf(Join(["5000", "500.0", "3", "2", "1", "80", "0", "5"], ',')) ==
      Ok(TimingPoint(5000, "500.0", 3, SampleSet.Soft, 1, 80, false, Effects(true, true)))
  {
    var f := ["5000", "500.0", "3", "2", "1", "80", "0", "5"];
    assert forall i :: 0 <= i < 8 ==> ',' !in f[i] by {
      assert ',' !in f[0] && ',' !in f[1];
    }
    SplitJoin(f, ',');
    TimingPointOfPieces(Join(f, ','), f);
    EightFieldsRead();
  }

  /** The eight example fields, read by their branch. */
  lemma EightFieldsRead()
    ensures TimingPointFrom(["5000", "500.0", "3", "2", "1", "80", "0", "5"]) ==
      Ok(TimingPoint(5000, "500.0", 3, SampleSet.Soft, 1, 80, false, Effects(true, true)))
  {
    Parse5000();
    assert "80"[..1] == "8";
    assert DigitsValue("80") == 80;
    assert ParseI64("80") == Some(80);
    assert ParseI64("3") == Some(3);
    assert ParseI64("1") == Some(1);
    assert ParseI64("0") == Some(0);
  }
}
