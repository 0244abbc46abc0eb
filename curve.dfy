/** `Curve::from_str` of src/parseparts.rs: a curve type letter and
    `|`-separated `x:y` points, a Perfect curve taking at most two. */
module Curves {
  import opened Results
  import opened Text
  import opened Numbers
  import opened Parts
  import opened Tokens

  /** One `x:y` pair: `x` must be an i64 (else an error), a missing `y`
      panics, `y` must be an i64 (else an error); later pieces are ignored. */
  function PointOf(pair: string, s: string): (r: Outcome<(int, int)>)
    ensures r.Err? ==> r.error == InvalidToken(s, "i64")
    ensures r.Ok? ==> ParseI64(Split(pair, ':')[0]) == Some(r.value.0)
    ensures r.Ok? ==> |Split(pair, ':')| >= 2 && ParseI64(Split(pair, ':')[1]) == Some(r.value.1)
    ensures r.Panic? <==> ParseI64(Split(pair, ':')[0]).Some? && |Split(pair, ':')| < 2
  {
    var q := Split(pair, ':');
    match ParseI64(q[0])
    case None => Err(InvalidToken(s, "i64"))
    case Some(x) =>
      if |q| < 2 then Panic
      else match ParseI64(q[1])
      case None => Err(InvalidToken(s, "i64"))
      case Some(y) => Ok((x, y))
  }

  /** The pairs decoded in order, stopping at the first failure. */
  function PointsOf(pairs: seq<string>, s: string): Outcome<seq<(int, int)>>
  {
    Sequence(PointOutcomes(pairs, s))
  }

  function PointOutcomes(pairs: seq<string>, s: string): (r: seq<Outcome<(int, int)>>)
    ensures |r| == |pairs| && forall i :: 0 <= i < |pairs| ==> r[i] == PointOf(pairs[i], s)
  {
    seq(|pairs|, i requires 0 <= i < |pairs| => PointOf(pairs[i], s))
  }

  /** What the decoder computes: the first `|`-token is the curve type (a
      panic if it is not one); the other tokens are the points, of which a
      Perfect curve reads two and then fails if there is a third. */
  function CurveOf(s: string): (r: Outcome<Curve>)
    ensures ParseCurveType(Split(s, '|')[0]).Err? ==> r.Panic?
    ensures r.Ok? ==> Ok(r.value.curveType) == ParseCurveType(Split(s, '|')[0])
  {
    var tokens := Split(s, '|');
    match ParseCurveType(tokens[0])
    case Ok(curveType) => CurveFrom(curveType, tokens[1..], s)
    case _ => Panic
  }

  function CurveFrom(curveType: CurveType, pairs: seq<string>, s: string): (r: Outcome<Curve>)
    ensures r.Ok? ==> r.value.curveType == curveType
  {
    var limit := if curveType == Perfect && |pairs| > 2 then 2 else |pairs|;
    match PointsOf(pairs[..limit], s)
    case Ok(points) => if limit < |pairs| then Err(WrongArity(s, |pairs|)) else Ok(Curve(curveType, points))
    case Err(e) => Err(e)
    case Panic => Panic
  }

  /** The body of the decoder's loop for one pair. */
  method DecodePoint(pair: string, s: string) returns (r: Outcome<(int, int)>)
    ensures r == PointOf(pair, s)
  {
    var pieces := Split(pair, ':');
    var x := ParseI64(pieces[0]);
    if x.None? {
      return Err(InvalidToken(s, "i64"));
    }
    if |pieces| < 2 {
      return Panic;
    }
    var y := ParseI64(pieces[1]);
    if y.None? {
      return Err(InvalidToken(s, "i64"));
    }
    r := Ok((x.value, y.value));
  }

  /** The decoder as written: the first `|`-token must be a curve type,
      then the loop over the remaining pairs. */
  method DecodeCurve(s: string) returns (r: Outcome<Curve>)
    ensures r == CurveOf(s)
  {
    var line := Split(s, '|');
    var parsedType := ParseCurveType(line[0]);
    if !parsedType.Ok? {
      return Panic;
    }
    r := DecodePairs(parsedType.value, line[1..], s);
  }

  /** The decoder's loop over the pairs: it counts them, rejects a third
      pair of a Perfect curve before reading it, and pushes each decoded
      point. */
  method DecodePairs(curveType: CurveType, pairs: seq<string>, s: string) returns (r: Outcome<Curve>)
    ensures r == CurveFrom(curveType, pairs, s)
  {
    var points: seq<(int, int)> := [];
    var count := 0;
    while count < |pairs|
      invariant count <= |pairs| && (curveType == Perfect ==> count <= 2)
      invariant |points| == count && forall j :: 0 <= j < count ==> PointOf(pairs[j], s) == Ok(points[j])
    {
      if curveType == Perfect && count == 2 {
        CurveFromArity(curveType, pairs, s, points);
        return Err(WrongArity(s, |pairs|));
      }
      var point := DecodePoint(pairs[count], s);
      if !point.Ok? {
        CurveFromFail(curveType, pairs, s, count);
        return point.Propagate();
      }
      PushPoint(pairs, s, points, point.value);
      points := points + [point.value];
      count := count + 1;
    }
    CurveFromAll(curveType, pairs, s, points);
    r := Ok(Curve(curveType, points));
  }

  /** The loop invariant survives pushing the next decoded point. */
  lemma PushPoint(pairs: seq<string>, s: string, points: seq<(int, int)>, p: (int, int))
    requires |points| < |pairs| && PointOf(pairs[|points|], s) == Ok(p)
    requires forall j :: 0 <= j < |points| ==> PointOf(pairs[j], s) == Ok(points[j])
    ensures forall j :: 0 <= j < |points| + 1 ==> PointOf(pairs[j], s) == Ok((points + [p])[j])
  {
  }

  /** A third pair of a Perfect curve is rejected once the first two decode. */
  lemma CurveFromArity(curveType: CurveType, pairs: seq<string>, s: string, points: seq<(int, int)>)
    requires curveType == Perfect && |pairs| > 2 && |points| == 2
    requires forall j :: 0 <= j < 2 ==> PointOf(pairs[j], s) == Ok(points[j])
    ensures CurveFrom(curveType, pairs, s) == Err(WrongArity(s, |pairs|))
  {
    SequenceOk(PointOutcomes(pairs[..2], s));
  }

  /** The first failing pair within the limit decides the outcome. */
  lemma CurveFromFail(curveType: CurveType, pairs: seq<string>, s: string, k: nat)
    requires k < |pairs| && (curveType == Perfect ==> k < 2)
    requires forall j :: 0 <= j < k ==> PointOf(pairs[j], s).Ok?
    requires !PointOf(pairs[k], s).Ok?
    ensures CurveFrom(curveType, pairs, s) == PointOf(pairs[k], s).Propagate()
  {
    var limit := if curveType == Perfect && |pairs| > 2 then 2 else |pairs|;
    var outcomes := PointOutcomes(pairs[..limit], s);
    SequenceOk(outcomes[..k]);
    SequenceFail(outcomes, k);
  }

  /** Within the limit, pairs that all decode give the curve of their points. */
  lemma CurveFromAll(curveType: CurveType, pairs: seq<string>, s: string, points: seq<(int, int)>)
    requires (curveType == Perfect ==> |pairs| <= 2) && |points| == |pairs|
    requires forall j :: 0 <= j < |pairs| ==> PointOf(pairs[j], s) == Ok(points[j])
    ensures CurveFrom(curveType, pairs, s) == Ok(Curve(curveType, points))
  {
    assert pairs[..|pairs|] == pairs;
    SequenceOk(PointOutcomes(pairs, s));
    assert Sequence(PointOutcomes(pairs, s)).value == points;
  }

  /** A decoded curve has one point per `|`-token after the type, each the
      decoding of its token, and it decodes exactly when the curve type does,
      every pair does, and a Perfect curve has at most two pairs. */
  lemma CurvePoints(s: string)
    ensures var tokens := Split(s, '|');
      CurveOf(s).Ok? <==>
        ParseCurveType(tokens[0]).Ok? &&
        (ParseCurveType(tokens[0]).value == Perfect ==> |tokens| <= 3) &&
        forall i :: 1 <= i < |tokens| ==> PointOf(tokens[i], s).Ok?
    ensures CurveOf(s).Ok? ==>
      var tokens := Split(s, '|');
      CurveOf(s).value.curveType == ParseCurveType(tokens[0]).value &&
      |CurveOf(s).value.points| == |tokens| - 1 &&
      forall i :: 1 <= i < |tokens| ==> PointOf(tokens[i], s) == Ok(CurveOf(s).value.points[i - 1])
  {
    var tokens := Split(s, '|');
    if ParseCurveType(tokens[0]).Ok? {
      CurveFromOk(ParseCurveType(tokens[0]).value, tokens, s);
    }
  }

  lemma CurveFromOk(curveType: CurveType, tokens: seq<string>, s: string)
    requires |tokens| >= 1
    ensures CurveFrom(curveType, tokens[1..], s).Ok? <==>
      (curveType == Perfect ==> |tokens| <= 3) && forall i :: 1 <= i < |tokens| ==> PointOf(tokens[i], s).Ok?
    ensures CurveFrom(curveType, tokens[1..], s).Ok? ==>
      CurveFrom(curveType, tokens[1..], s).value.curveType == curveType &&
      |CurveFrom(curveType, tokens[1..], s).value.points| == |tokens| - 1 &&
      forall i :: 1 <= i < |tokens| ==> PointOf(tokens[i], s) == Ok(CurveFrom(curveType, tokens[1..], s).value.points[i - 1])
  {
    var pairs := tokens[1..];
    if curveType == Perfect && |pairs| > 2 {
      // Two pairs at most are read, and then the third one is an error.
      assert !CurveFrom(curveType, pairs, s).Ok?;
    } else {
      assert pairs[..|pairs|] == pairs;
      PointsOk(pairs, s);
      assert forall i :: 1 <= i < |tokens| ==> tokens[i] == pairs[i - 1];
    }
  }

  /** The pairs decode iff each of them does, to the points in order. */
  lemma PointsOk(pairs: seq<string>, s: string)
    ensures PointsOf(pairs, s).Ok? <==> forall i :: 0 <= i < |pairs| ==> PointOf(pairs[i], s).Ok?
    ensures PointsOf(pairs, s).Ok? ==>
      |PointsOf(pairs, s).value| == |pairs| &&
      forall i :: 0 <= i < |pairs| ==> PointOf(pairs[i], s) == Ok(PointsOf(pairs, s).value[i])
  {
    SequenceOk(PointOutcomes(pairs, s));
  }

  /** A Perfect curve with a third point never decodes. */
  lemma PerfectAtMostTwo(s: string)
    requires ParseCurveType(Split(s, '|')[0]) == Ok(Perfect) && |Split(s, '|')| > 3
    ensures !CurveOf(s).Ok?
  {
  }

  /** A pair written from two i64 values decodes back to them. */
  lemma PointOfShow(x: int, y: int, s: string)
    requires InI64(x) && InI64(y)
    ensures PointOf(ShowInt(x) + ":" + ShowInt(y), s) == Ok((x, y))
  {
    ShowIntAvoids(x, ':');
    ShowIntAvoids(y, ':');
    SplitAppend(ShowInt(x), ShowInt(y), ':');
    SplitNoDelimiter(ShowInt(y), ':');
    ParseShowI64(x);
    ParseShowI64(y);
  }
}
