/** `Circle::from_str`, `Spinner::from_str` and `Slider::from_str` of
    src/parseparts.rs, with the record shapes of
    src/collections/hit_object.rs.  Every field is taken from the next
    comma-token with `.expect`, so a missing or malformed field panics; the
    only error is a slider whose trailing field count is not 3, 4 or 6. */
module HitObjects {
  import opened Results
  import opened Text
  import opened Numbers
  import opened Parts
  import opened TypeField
  import opened HitSounds
  import opened Samples
  import opened Curves
  import opened Tokens

  datatype Circle = Circle(x: int, y: int, time: int, flags: Type, hitSound: HitSound, hitSample: HitSample)

  datatype Spinner = Spinner(x: int, y: int, time: int, flags: Type, hitSound: HitSound, endTime: int,
                             hitSample: HitSample)

  /** `length` is the raw token of an `f64`, which this model does not decode. */
  datatype Slider = Slider(x: int, y: int, time: int, flags: Type, hitSound: HitSound, curve: Curve,
                           slides: int, length: string, edgeSounds: seq<HitSound>,
                           edgeSets: seq<HalfHitSample>, hitSample: HitSample)

  /** A mania hold note has the shape of a spinner; the source has no decoder
      for it. */
  datatype ManiaHold = ManiaHold(x: int, y: int, time: int, flags: Type, hitSound: HitSound, endTime: int,
                                 hitSample: HitSample)

  /** `HitObject`, the union of the four shapes. */
  datatype HitObject =
    | CircleObject(circle: Circle)
    | SliderObject(slider: Slider)
    | SpinnerObject(spinner: Spinner)
    | ManiaHoldObject(hold: ManiaHold)

  /** The five fields every hit object starts with. */
  datatype Head = Head(x: int, y: int, time: int, flags: Type, hitSound: HitSound)

  /** x, y and time as i64, the Type and the HitSound; any shortfall or
      failure panics. */
  function HeadOf(fields: seq<string>): (r: Outcome<Head>)
    ensures !r.Err?
    ensures |fields| < 5 ==> r.Panic?
  {
    if |fields| < 5 then Panic
    else
      var x := ParseI64(fields[0]);
      var y := ParseI64(fields[1]);
      var time := ParseI64(fields[2]);
      var flags := ParseType(fields[3]);
      var hitSound := HitSoundOf(fields[4]);
      if x.Some? && y.Some? && time.Some? && flags.Ok? && hitSound.Ok? then
        Ok(Head(x.value, y.value, time.value, flags.value, hitSound.value))
      else Panic
  }

  /** `Circle::from_str`: the five shared fields; the hit sample is the
      default and later fields are not read. */
  function CircleOf(s: string): (r: Outcome<Circle>)
    ensures !r.Err?
  {
    var head := HeadOf(Split(s, ','));
    if head.Ok? then
      var h := head.value;
      Ok(Circle.Circle(h.x, h.y, h.time, h.flags, h.hitSound, DefaultHitSample))
    else Panic
  }

  /** `Spinner::from_str`: the five shared fields and an i64 end time; the
      hit sample is the default. */
  function SpinnerOf(s: string): (r: Outcome<Spinner>)
    ensures !r.Err?
  {
    var fields := Split(s, ',');
    var head := HeadOf(fields);
    if head.Ok? && |fields| >= 6 && ParseI64(fields[5]).Some? then
      var h := head.value;
      Ok(Spinner.Spinner(h.x, h.y, h.time, h.flags, h.hitSound, ParseI64(fields[5]).value, DefaultHitSample))
    else Panic
  }

  /** The outcome of decoding each `|`-piece of an edge-sounds token. */
  function EdgeSoundOutcomes(pieces: seq<string>): (r: seq<Outcome<HitSound>>)
    ensures |r| == |pieces| && forall i :: 0 <= i < |pieces| ==> r[i] == HitSoundOf(pieces[i])
  {
    seq(|pieces|, i requires 0 <= i < |pieces| => HitSoundOf(pieces[i]))
  }

  /** The outcome of decoding each `|`-piece of an edge-sets token. */
  function EdgeSetOutcomes(pieces: seq<string>): (r: seq<Outcome<HalfHitSample>>)
    ensures |r| == |pieces| && forall i :: 0 <= i < |pieces| ==> r[i] == ParseHalfHitSample(pieces[i])
  {
    seq(|pieces|, i requires 0 <= i < |pieces| => ParseHalfHitSample(pieces[i]))
  }

  /** The edge sounds a slider has when its line gives none: those the
      decoder reads from "0" and "2" (`DefaultEdgesDecode`). */
  const DefaultEdgeSounds: seq<HitSound> := [HitSound(false, false, false, false), HitSound(false, true, false, false)]

  /** The edge sets a slider has when its line gives none: the decoding of
      "0:0", twice. */
  const DefaultEdgeSets: seq<HalfHitSample> := [DefaultHalfHitSample, DefaultHalfHitSample]

  /** The defaults are what the decoder reads from its fixed tokens. */
  lemma DefaultEdgesDecode()
    ensures Sequence([HitSoundOf("0"), HitSoundOf("2")]) == Ok(DefaultEdgeSounds)
    ensures Sequence([ParseHalfHitSample("0:0"), ParseHalfHitSample("0:0")]) == Ok(DefaultEdgeSets)
  {
    HitSoundDefaults();
    ParseHalfHitSampleCodes(SampleSet.Default, SampleSet.Default);
    SequencePair(HitSoundOf("0"), HitSoundOf("2"));
    SequencePair(ParseHalfHitSample("0:0"), ParseHalfHitSample("0:0"));
  }

  /** `Slider::from_str`: after the shared fields, 3, 4 or 6 trailing
      fields (any other count is an error), decoded by `SliderTrailing`. */
  function SliderOf(s: string): (r: Outcome<Slider>)
    ensures r.Err? ==> |Split(s, ',')| >= 5 && r.error == WrongArity(s, |Split(s, ',')| - 5)
  {
    var fields := Split(s, ',');
    var head := HeadOf(fields);
    if !head.Ok? then Panic
    else
      var remaining := |fields| - 5;
      if remaining != 3 && remaining != 4 && remaining != 6 then Err(WrongArity(s, remaining))
      else SliderTrailing(head.value, fields[5..])
  }

  /** The trailing fields of a slider: the curve, the slide count, the
      length, then the edge sounds (with 4 or 6 fields), the edge sets and
      the hit sample (with 6); the absent ones take their defaults.  A nested
      decoding that fails panics. */
  function SliderTrailing(h: Head, rest: seq<string>): (r: Outcome<Slider>)
    requires |rest| == 3 || |rest| == 4 || |rest| == 6
    ensures !r.Err?
    ensures r.Ok? ==> r.value.length == rest[2] && Ok(r.value.curve) == CurveOf(rest[0])
  {
    var curve := CurveOf(rest[0]);
    var slides := ParseI64(rest[1]);
    var edgeSounds := if |rest| != 3 then Sequence(EdgeSoundOutcomes(Split(rest[3], '|'))) else Ok(DefaultEdgeSounds);
    var edgeSets := if |rest| == 6 then Sequence(EdgeSetOutcomes(Split(rest[4], '|'))) else Ok(DefaultEdgeSets);
    var hitSample := if |rest| == 6 then HitSampleOf(rest[5]) else Ok(DefaultHitSample);
    if curve.Ok? && slides.Some? && edgeSounds.Ok? && edgeSets.Ok? && hitSample.Ok? then
      Ok(Slider.Slider(h.x, h.y, h.time, h.flags, h.hitSound, curve.value, slides.value, rest[2],
                       edgeSounds.value, edgeSets.value, hitSample.value))
    else Panic
  }

  /** The edge-sounds loop: each `|`-piece decoded as a HitSound and pushed,
      a failure panicking. */
  method DecodeEdgeSounds(token: string) returns (r: Outcome<seq<HitSound>>)
    ensures r == Sequence(EdgeSoundOutcomes(Split(token, '|'))).Expect()
  {
    var pieces := Split(token, '|');
    ghost var outcomes := EdgeSoundOutcomes(pieces);
    var sounds: seq<HitSound> := [];
    var i := 0;
    while i < |pieces|
      invariant 0 <= i <= |pieces|
      invariant Sequence(outcomes[..i]) == Ok(sounds)
    {
      var sound := DecodeHitSound(pieces[i]);
      if !sound.Ok? {
        SequenceFail(outcomes, i);
        return Panic;
      }
      SequenceSnoc(outcomes[..i], sound);
      TakeSnoc(outcomes, i);
      sounds := sounds + [sound.value];
      i := i + 1;
    }
    assert outcomes[..i] == outcomes;
    r := Ok(sounds);
  }

  /** The edge-sets loop: each `|`-piece decoded as a HalfHitSample and
      pushed, a failure panicking. */
  method DecodeEdgeSets(token: string) returns (r: Outcome<seq<HalfHitSample>>)
    ensures r == Sequence(EdgeSetOutcomes(Split(token, '|'))).Expect()
  {
    var pieces := Split(token, '|');
    ghost var outcomes := EdgeSetOutcomes(pieces);
    var sets: seq<HalfHitSample> := [];
    var i := 0;
    while i < |pieces|
      invariant 0 <= i <= |pieces|
      invariant Sequence(outcomes[..i]) == Ok(sets)
    {
      var edgeSet := ParseHalfHitSample(pieces[i]);
      if !edgeSet.Ok? {
        SequenceFail(outcomes, i);
        return Panic;
      }
      SequenceSnoc(outcomes[..i], edgeSet);
      TakeSnoc(outcomes, i);
      sets := sets + [edgeSet.value];
      i := i + 1;
    }
    assert outcomes[..i] == outcomes;
    r := Ok(sets);
  }

  /** `Slider::from_str` as written: the shared fields, then the arity
      check, then the trailing fields. */
  method DecodeSlider(s: string) returns (r: Outcome<Slider>)
    ensures r == SliderOf(s)
  {
    var fields := Split(s, ',');
    var head := HeadOf(fields);
    if !head.Ok? {
      return Panic;
    }
    var remaining := |fields| - 5;
    if remaining != 3 && remaining != 4 && remaining != 6 {
      return Err(WrongArity(s, remaining));
    }
    r := DecodeTrailing(head.value, fields[5..]);
  }

  /** The trailing fields, each by the decoder of its kind, in the order
      the source reads them. */
  method DecodeTrailing(h: Head, rest: seq<string>) returns (r: Outcome<Slider>)
    requires |rest| == 3 || |rest| == 4 || |rest| == 6
    ensures r == SliderTrailing(h, rest)
  {
    var curve := DecodeCurve(rest[0]);
    if !curve.Ok? {
      return Panic;
    }
    var slides := ParseI64(rest[1]);
    if slides.None? {
      return Panic;
    }
    var length := rest[2];
    var edgeSounds: Outcome<seq<HitSound>>;
    if |rest| == 4 || |rest| == 6 {
      edgeSounds := DecodeEdgeSounds(rest[3]);
    } else {
      var none := DecodeHitSound("0");
      var whistle := DecodeHitSound("2");
      HitSoundDefaults();
      edgeSounds := Ok([none.value, whistle.value]);
    }
    if !edgeSounds.Ok? {
      return Panic;
    }
    var edgeSets: Outcome<seq<HalfHitSample>>;
    if |rest| == 6 {
      edgeSets := DecodeEdgeSets(rest[4]);
    } else {
      var half := ParseHalfHitSample("0:0");
      ParseHalfHitSampleCodes(SampleSet.Default, SampleSet.Default);
      edgeSets := Ok([half.value, half.value]);
    }
    if !edgeSets.Ok? {
      return Panic;
    }
    var hitSample := Ok(DefaultHitSample);
    if |rest| == 6 {
      hitSample := DecodeHitSample(rest[5]);
      if !hitSample.Ok? {
        return Panic;
      }
    }
    r := Ok(Slider.Slider(h.x, h.y, h.time, h.flags, h.hitSound, curve.value, slides.value, length,
                          edgeSounds.value, edgeSets.value, hitSample.value));
  }

  /** A circle decodes exactly when its five shared fields do; its hit
      sample is always the default. */
  lemma CircleShape(s: string)
    ensures CircleOf(s).Ok? <==> HeadOf(Split(s, ',')).Ok?
    ensures !CircleOf(s).Err?
    ensures CircleOf(s).Ok? ==> CircleOf(s).value.hitSample == DefaultHitSample
  {
  }

  /** The decimal text of the five shared fields. */
  function HeadText(h: Head): string
  {
    ShowInt(h.x) + "," + ShowInt(h.y) + "," + ShowInt(h.time) + "," +
    ShowNat(TypeByte(h.flags)) + "," + ShowNat(HitSoundValue(h.hitSound))
  }

  /** Shared fields written out in decimal decode back to themselves. */
  lemma HeadRoundTrip(h: Head)
    requires InI64(h.x) && InI64(h.y) && InI64(h.time)
    ensures |Split(HeadText(h), ',')| == 5 && HeadOf(Split(HeadText(h), ',')) == Ok(h)
  {
    ShowIntAvoids(h.x, ',');
    ShowIntAvoids(h.y, ',');
    ShowIntAvoids(h.time, ',');
    ShowIntAvoids(TypeByte(h.flags), ',');
    ShowIntAvoids(HitSoundValue(h.hitSound), ',');
    SplitFive(ShowInt(h.x), ShowInt(h.y), ShowInt(h.time), ShowNat(TypeByte(h.flags)),
              ShowNat(HitSoundValue(h.hitSound)), ',');
    ParseShowI64(h.x);
    ParseShowI64(h.y);
    ParseShowI64(h.time);
    ParseTypeByte(h.flags);
    HitSoundFromValue(h.hitSound);
  }

  lemma CircleRoundTrip(h: Head)
    requires InI64(h.x) && InI64(h.y) && InI64(h.time)
    ensures CircleOf(HeadText(h)) == Ok(Circle.Circle(h.x, h.y, h.time, h.flags, h.hitSound, DefaultHitSample))
  {
    HeadRoundTrip(h);
  }

  /** Only the first five fields decide the head. */
  lemma HeadOfPrefix(fields: seq<string>, more: seq<string>)
    requires |fields| >= 5
    ensures HeadOf(fields + more) == HeadOf(fields)
  {
    assert forall i :: 0 <= i < 5 ==> (fields + more)[i] == fields[i];
  }

  /** A circle ignores every field after its fifth. */
  lemma CircleIgnoresRest(s: string, t: string)
    requires |Split(s, ',')| >= 5
    ensures CircleOf(s + "," + t) == CircleOf(s)
  {
    SplitConcat(s, t, ',');
    HeadOfPrefix(Split(s, ','), Split(t, ','));
  }

  /** A spinner decodes exactly when its shared fields and an i64 end time
      do; its hit sample is always the default. */
  lemma SpinnerShape(s: string)
    ensures SpinnerOf(s).Ok? <==>
      var fields := Split(s, ',');
      HeadOf(fields).Ok? && |fields| >= 6 && ParseI64(fields[5]).Some?
    ensures !SpinnerOf(s).Err?
    ensures SpinnerOf(s).Ok? ==>
      SpinnerOf(s).value.endTime == ParseI64(Split(s, ',')[5]).value &&
      SpinnerOf(s).value.hitSample == DefaultHitSample
  {
  }

  lemma SpinnerRoundTrip(h: Head, endTime: int)
    requires InI64(h.x) && InI64(h.y) && InI64(h.time) && InI64(endTime)
    ensures SpinnerOf(HeadText(h) + "," + ShowInt(endTime)) ==
      Ok(Spinner.Spinner(h.x, h.y, h.time, h.flags, h.hitSound, endTime, DefaultHitSample))
  {
    var e := ShowInt(endTime);
    var fields := Split(HeadText(h), ',');
    HeadRoundTrip(h);
    SplitConcat(HeadText(h), e, ',');
    ShowIntAvoids(endTime, ',');
    SplitNoDelimiter(e, ',');
    assert Split(HeadText(h) + "," + e, ',') == fields + [e];
    HeadOfPrefix(fields, [e]);
    assert (fields + [e])[5] == e;
    ParseShowI64(endTime);
  }

  /** A spinner ignores every field after its sixth. */
  lemma SpinnerIgnoresRest(s: string, t: string)
    requires |Split(s, ',')| >= 6
    ensures SpinnerOf(s + "," + t) == SpinnerOf(s)
  {
    SplitConcat(s, t, ',');
    HeadOfPrefix(Split(s, ','), Split(t, ','));
    assert (Split(s, ',') + Split(t, ','))[5] == Split(s, ',')[5];
  }

  /** The only error of a slider: its shared fields decode but the number of
      fields after them is not 3, 4 or 6; that count is reported. */
  lemma SliderArity(s: string)
    ensures var fields := Split(s, ',');
      SliderOf(s).Err? <==>
        HeadOf(fields).Ok? && |fields| - 5 != 3 && |fields| - 5 != 4 && |fields| - 5 != 6
    ensures SliderOf(s).Err? ==> SliderOf(s).error == WrongArity(s, |Split(s, ',')| - 5)
  {
  }

  /** What a decoded slider holds: the shared fields, the decoded curve and
      slide count, the raw length token, the edge sounds and edge sets
      decoded piece by piece from their fields when the line has them and
      the defaults otherwise, and the hit sample from the last field only
      when there are six trailing fields. */
  lemma SliderFields(s: string)
    requires SliderOf(s).Ok?
    ensures var fields := Split(s, ','); var v := SliderOf(s).value;
      && HeadOf(fields) == Ok(Head(v.x, v.y, v.time, v.flags, v.hitSound))
      && CurveOf(fields[5]) == Ok(v.curve)
      && ParseI64(fields[6]) == Some(v.slides)
      && v.length == fields[7]
      && (|fields| == 8 ==> v.edgeSounds == DefaultEdgeSounds)
      && (|fields| != 8 ==>
           |v.edgeSounds| == |Split(fields[8], '|')| &&
           forall i :: 0 <= i < |v.edgeSounds| ==> HitSoundOf(Split(fields[8], '|')[i]) == Ok(v.edgeSounds[i]))
      && (|fields| != 11 ==> v.edgeSets == DefaultEdgeSets && v.hitSample == DefaultHitSample)
      && (|fields| == 11 ==>
           |v.edgeSets| == |Split(fields[9], '|')| &&
           (forall i :: 0 <= i < |v.edgeSets| ==> ParseHalfHitSample(Split(fields[9], '|')[i]) == Ok(v.edgeSets[i])) &&
           HitSampleOf(fields[10]) == Ok(v.hitSample))
  {
    var fields := Split(s, ',');
    TrailingFields(HeadOf(fields).value, fields[5..]);
  }

  /** `SliderFields` for the trailing fields alone. */
  lemma TrailingFields(h: Head, rest: seq<string>)
    requires |rest| == 3 || |rest| == 4 || |rest| == 6
    requires SliderTrailing(h, rest).Ok?
    ensures var v := SliderTrailing(h, rest).value;
      && Head(v.x, v.y, v.time, v.flags, v.hitSound) == h
      && CurveOf(rest[0]) == Ok(v.curve)
      && ParseI64(rest[1]) == Some(v.slides)
      && v.length == rest[2]
      && (|rest| == 3 ==> v.edgeSounds == DefaultEdgeSounds)
      && (|rest| != 3 ==>
           |v.edgeSounds| == |Split(rest[3], '|')| &&
           forall i :: 0 <= i < |v.edgeSounds| ==> HitSoundOf(Split(rest[3], '|')[i]) == Ok(v.edgeSounds[i]))
      && (|rest| != 6 ==> v.edgeSets == DefaultEdgeSets && v.hitSample == DefaultHitSample)
      && (|rest| == 6 ==>
           |v.edgeSets| == |Split(rest[4], '|')| &&
           (forall i :: 0 <= i < |v.edgeSets| ==> ParseHalfHitSample(Split(rest[4], '|')[i]) == Ok(v.edgeSets[i])) &&
           HitSampleOf(rest[5]) == Ok(v.hitSample))
  {
    if |rest| != 3 {
      SequenceOk(EdgeSoundOutcomes(Split(rest[3], '|')));
    }
    if |rest| == 6 {
      SequenceOk(EdgeSetOutcomes(Split(rest[4], '|')));
    }
  }

  /** Every `|`-piece of an edge-sounds token is a hit sound. */
  predicate EdgeSoundsOk(token: string)
  {
    var q := Split(token, '|');
    forall i :: 0 <= i < |q| ==> HitSoundOf(q[i]).Ok?
  }

  /** Every `|`-piece of an edge-sets token is a half hit sample. */
  predicate EdgeSetsOk(token: string)
  {
    var q := Split(token, '|');
    forall i :: 0 <= i < |q| ==> ParseHalfHitSample(q[i]).Ok?
  }

  /** The edge lists decode exactly when each of their pieces does. */
  lemma EdgesOk(token: string)
    ensures Sequence(EdgeSoundOutcomes(Split(token, '|'))).Ok? <==> EdgeSoundsOk(token)
    ensures Sequence(EdgeSetOutcomes(Split(token, '|'))).Ok? <==> EdgeSetsOk(token)
  {
    SequenceOk(EdgeSoundOutcomes(Split(token, '|')));
    SequenceOk(EdgeSetOutcomes(Split(token, '|')));
  }

  /** The trailing fields decode exactly when each one the branch reads
      does: the curve, the slide count, every edge sound (with 4 or 6
      fields), every edge set and the hit sample (with 6).  The length is
      any text. */
  lemma SliderTrailingOk(h: Head, rest: seq<string>)
    requires |rest| == 3 || |rest| == 4 || |rest| == 6
    ensures SliderTrailing(h, rest).Ok? <==>
      && CurveOf(rest[0]).Ok? && ParseI64(rest[1]).Some?
      && (|rest| != 3 ==> EdgeSoundsOk(rest[3]))
      && (|rest| == 6 ==> EdgeSetsOk(rest[4]) && HitSampleOf(rest[5]).Ok?)
  {
    if |rest| != 3 {
      EdgesOk(rest[3]);
    }
    if |rest| == 6 {
      EdgesOk(rest[4]);
    }
  }

  /** When a slider decodes: its shared fields do, 3, 4 or 6 fields follow
      them, and every trailing field its branch reads decodes.  A slider
      that neither decodes nor has the wrong count panics. */
  lemma SliderOk(s: string)
    ensures var f := Split(s, ','); var n := |f| - 5;
      SliderOf(s).Ok? <==>
        && HeadOf(f).Ok?
        && (n == 3 || n == 4 || n == 6)
        && CurveOf(f[5]).Ok? && ParseI64(f[6]).Some?
        && (n != 3 ==> EdgeSoundsOk(f[8]))
        && (n == 6 ==> EdgeSetsOk(f[9]) && HitSampleOf(f[10]).Ok?)
  {
    var f := Split(s, ',');
    var n := |f| - 5;
    if HeadOf(f).Ok? && (n == 3 || n == 4 || n == 6) {
      SliderTrailingOk(HeadOf(f).value, f[5..]);
    }
  }

  /** The `L|300:192` curve of the example slider: linear, one point. */
  lemma ExampleCurve()
    ensures CurveOf("L|300:192") == Ok(Curve(Linear, [(300, 192)]))
  {
    ExampleCurvePieces();
    ExampleCurveFrom();
    assert ParseCurveType("L") == Ok(Linear);
    assert Split("L|300:192", '|')[1..] == ["300:192"];
  }

  /** The `|`-pieces of the example curve. */
  lemma ExampleCurvePieces()
    ensures Split("L|300:192", '|') == ["L", "300:192"]
  {
    assert "L|300:192" == Join(["L", "300:192"], '|');
    SplitJoin(["L", "300:192"], '|');
  }

  /** The points of the example curve after its type letter. */
  lemma ExampleCurveFrom()
    ensures CurveFrom(Linear, ["300:192"], "L|300:192") == Ok(Curve(Linear, [(300, 192)]))
  {
    ExamplePoint();
    CurveFromAll(Linear, ["300:192"], "L|300:192", [(300, 192)]);
  }

  /** The one point of the example curve. */
  lemma ExamplePoint()
    ensures PointOf("300:192", "L|300:192") == Ok((300, 192))
  {
    assert "300:192" == Join(["300", "192"], ':');
    SplitJoin(["300", "192"], ':');
    ExampleNumbers();
  }

  /** The integers of the example slider. */
  lemma ExampleNumbers()
    ensures ParseI64("256") == Some(256) && ParseI64("192") == Some(192)
    ensures ParseI64("1000") == Some(1000) && ParseI64("300") == Some(300) && ParseI64("1") == Some(1)
  {
    assert ParseI64("256") == Some(256) by {
      assert "256"[..2] == "25" && "25"[..1] == "2";
      assert DigitsValue("256") == 256;
    }
    assert ParseI64("192") == Some(192) by {
      assert "192"[..2] == "19" && "19"[..1] == "1";
      assert DigitsValue("192") == 192;
    }
    assert ParseI64("1000") == Some(1000) by {
      assert "1000"[..3] == "100" && "100"[..2] == "10" && "10"[..1] == "1";
      assert DigitsValue("1000") == 1000;
    }
    assert ParseI64("300") == Some(300) by {
      assert "300"[..2] == "30" && "30"[..1] == "3";
      assert DigitsValue("300") == 300;
    }
  }

  /** The type byte 64 sets string position 1, which selects a slider. */
  lemma ParseType64()
    ensures ParseType("64") == Ok(Type(ObjectType.Slider, false, 0))
  {
    assert "64"[..1] == "6";
    assert DigitsValue("64") == 64;
    assert ParseU8("64") == Some(64);
    BinaryFlags(64);
  }

  /** The shared fields of the example slider with type byte 64. */
  lemma ExampleHead()
    ensures HeadOf(ExamplePieces("64")) ==
      Ok(Head(256, 192, 1000, Type(ObjectType.Slider, false, 0), HitSound(false, false, false, false)))
  {
    ParseType64();
    ExampleNumbers();
    HitSoundDefaults();
  }

  /** The three trailing fields of the example slider. */
  lemma ExampleTrailing(h: Head)
    ensures SliderTrailing(h, ["L|300:192", "1", "100.0"]) ==
      Ok(Slider.Slider(h.x, h.y, h.time, h.flags, h.hitSound, Curve(Linear, [(300, 192)]), 1, "100.0",
                       DefaultEdgeSounds, DefaultEdgeSets, DefaultHitSample))
  {
    ExampleCurve();
    ExampleNumbers();
  }

  /** The pieces of the example slider line with type byte `flags`. */
  function ExamplePieces(flags: string): (r: seq<string>)
    ensures |r| == 8
  {
    ["256", "192", "1000", flags, "0", "L|300:192", "1", "100.0"]
  }

  /** The example slider line `256,192,1000,<flags>,0,L|300:192,1,100.0`. */
  function ExampleLine(flags: string): string
  {
    Join(ExamplePieces(flags), ',')
  }

  /** The comma pieces of the example line are its eight fields. */
  lemma ExampleLineSplit(flags: string)
    requires ',' !in flags
    ensures Split(ExampleLine(flags), ',') == ExamplePieces(flags)
  {
    var f := ExamplePieces(flags);
    assert forall i :: 0 <= i < 8 ==> ',' !in f[i] by {
      assert ',' !in f[5];
      assert ',' !in f[7];
    }
    SplitJoin(f, ',');
  }

  /** Type byte 2 makes the shared fields panic. */
  lemma ExampleHead2()
    ensures HeadOf(ExamplePieces("2")).Panic?
  {
    ParseTypeTwo();
  }

  /** A slider with three trailing fields: its curve, slide count and
      length, the default edge sounds and edge sets, and the default hit
      sample.  Its type byte is 64, the one the MSB-first decoding reads as a
      slider. */
  lemma SliderThreeFields()
    ensures SliderOf(ExampleLine("64")) ==
      Ok(Slider.Slider(256, 192, 1000, Type(ObjectType.Slider, false, 0), HitSound(false, false, false, false),
                       Curve(Linear, [(300, 192)]), 1, "100.0", DefaultEdgeSounds, DefaultEdgeSets, DefaultHitSample))
  {
    var f := ExamplePieces("64");
    ExampleLineSplit("64");
    ExampleHead();
    assert f[5..] == ["L|300:192", "1", "100.0"];
    ExampleTrailing(HeadOf(f).value);
  }

  /** The same slider with the type byte 2, the value whose least
      significant bit numbering means "slider": the code as written finds
      no object type in it, so the `.expect` on the type panics. */
  lemma SliderTypeTwo()
    ensures SliderOf(ExampleLine("2")).Panic?
  {
    ExampleLineSplit("2");
    ExampleHead2();
  }
}
