/** `Break::from_str` of src/parts/_break.rs: the start and end times on
    either side of the first comma. */
module Breaks {
  import opened Results
  import opened Text
  import opened Numbers
  import opened Parts

  /** Split at the first comma and decode both sides as i64; a missing comma
      or a side that is not an i64 is an error, the start time checked
      first. */
  function BreakOf(s: string): (r: Outcome<Break>)
    ensures !r.Panic?
    ensures r.Err? ==> r.error in {SplitError(s, ','), Unknown("start_time", s), Unknown("end_time", s)}
  {
    match SplitOnce(s, ',')
    case None => Err(SplitError(s, ','))
    case Some((first, second)) =>
      match ParseI64(first)
      case None => Err(Unknown("start_time", s))
      case Some(startTime) =>
        match ParseI64(second)
        case None => Err(Unknown("end_time", s))
        case Some(endTime) => Ok(Break(startTime, endTime))
  }

  /** Without a comma there is no break. */
  lemma BreakNeedsComma(s: string)
    requires ',' !in s
    ensures BreakOf(s) == Err(SplitError(s, ','))
  {
  }

  /** The split is at the first comma: the start time is decoded from the
      text before it and the end time from all the text after it. */
  lemma BreakFields(a: string, b: string)
    requires ',' !in a
    ensures BreakOf(a + "," + b) ==
      if ParseI64(a).None? then Err(Unknown("start_time", a + "," + b))
      else if ParseI64(b).None? then Err(Unknown("end_time", a + "," + b))
      else Ok(Break(ParseI64(a).value, ParseI64(b).value))
  {
    SplitOnceAt(a, b, ',');
  }

  /** A second comma lands in the end-time text, which then fails. */
  lemma BreakSecondComma(s: string)
    requires Count(s, ',') >= 2
    ensures !BreakOf(s).Ok?
  {
    SplitOnceSplit(s, ',');
    var second := SplitOnce(s, ',').value.1;
    assert ',' in second;
    ParseI64Rejects(second, ',');
  }

  lemma BreakRoundTrip(startTime: int, endTime: int)
    requires InI64(startTime) && InI64(endTime)
    ensures BreakOf(ShowInt(startTime) + "," + ShowInt(endTime)) == Ok(Break(startTime, endTime))
  {
    ShowIntAvoids(startTime, ',');
    ParseShowI64(startTime);
    ParseShowI64(endTime);
    BreakFields(ShowInt(startTime), ShowInt(endTime));
  }
}
