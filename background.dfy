/** `Background::from_str` of src/parts/background.rs (the same decoder
    opens src/parseparts.rs): the line is read from the right, so the two
    offsets are the last two comma-fields and the file name is everything
    before them, commas included. */
module Backgrounds {
  import opened Results
  import opened Text
  import opened Numbers
  import opened Parts

  /** Reverse the line, split off the reversed y offset at the first comma,
      then the reversed x offset at the next one; the rest, reversed back, is
      the file name.  A missing comma or an offset that is not an i64 is an
      error. */
  function BackgroundOf(s: string): (r: Outcome<Background>)
    ensures !r.Panic?
    ensures r.Err? ==> r.error in {SplitError(s, ','), Unknown("yoffset", s), Unknown("xoffset", s)}
  {
    var rest := Reverse(s);
    match SplitOnce(rest, ',')
    case None => Err(SplitError(s, ','))
    case Some((reversedY, rest1)) =>
      match ParseI64(Reverse(reversedY))
      case None => Err(Unknown("yoffset", s))
      case Some(yoffset) =>
        match SplitOnce(rest1, ',')
        case None => Err(SplitError(s, ','))
        case Some((reversedX, rest2)) =>
          match ParseI64(Reverse(reversedX))
          case None => Err(Unknown("xoffset", s))
          case Some(xoffset) => Ok(Background(Reverse(rest2), xoffset, yoffset))
  }

  /** Reversal keeps the number of occurrences of a character. */
  lemma {:induction false} CountReverse(s: string, c: char)
    ensures Count(Reverse(s), c) == Count(s, c)
  {
    if s != [] {
      CountReverse(s[1..], c);
      CountAppend(Reverse(s[1..]), [s[0]], c);
      CountAppend([s[0]], s[1..], c);
      assert s == [s[0]] + s[1..];
    }
  }

  /** The reversed text of three comma-joined parts, the last two without a
      comma. */
  lemma ReverseThree(f: string, a: string, b: string)
    ensures Reverse(f + "," + a + "," + b) == Reverse(b) + "," + (Reverse(a) + "," + Reverse(f))
  {
    ReverseAppend(f + "," + a + ",", b);
    ReverseAppend(f + "," + a, ",");
    ReverseAppend(f + ",", a);
    ReverseAppend(f, ",");
  }

  /** For a line `f,a,b` whose last two fields hold no comma: y is decoded
      from `b`, x from `a`, and the file name is `f` unchanged, whatever
      commas it holds; y is decoded first. */
  lemma BackgroundFields(f: string, a: string, b: string)
    requires ',' !in a && ',' !in b
    ensures BackgroundOf(f + "," + a + "," + b) ==
      if ParseI64(b).None? then Err(Unknown("yoffset", f + "," + a + "," + b))
      else if ParseI64(a).None? then Err(Unknown("xoffset", f + "," + a + "," + b))
      else Ok(Background(f, ParseI64(a).value, ParseI64(b).value))
  {
    var s := f + "," + a + "," + b;
    ReverseThree(f, a, b);
    ReverseMember(a, ',');
    ReverseMember(b, ',');
    SplitOnceAt(Reverse(b), Reverse(a) + "," + Reverse(f), ',');
    SplitOnceAt(Reverse(a), Reverse(f), ',');
    ReverseReverse(a);
    ReverseReverse(b);
    ReverseReverse(f);
  }

  /** A line with fewer than two commas is an error. */
  lemma BackgroundNeedsTwoCommas(s: string)
    requires Count(s, ',') < 2
    ensures BackgroundOf(s).Err?
  {
    var rest := Reverse(s);
    CountReverse(s, ',');
    if SplitOnce(rest, ',').Some? {
      SplitOnceSplit(rest, ',');
      var rest1 := SplitOnce(rest, ',').value.1;
      assert Count(rest1, ',') == 0;
    }
  }

  /** Every file name, commas included, and every pair of i64 offsets come
      back from their line. */
  lemma BackgroundRoundTrip(f: string, x: int, y: int)
    requires InI64(x) && InI64(y)
    ensures BackgroundOf(f + "," + ShowInt(x) + "," + ShowInt(y)) == Ok(Background(f, x, y))
  {
    ShowIntAvoids(x, ',');
    ShowIntAvoids(y, ',');
    ParseShowI64(x);
    ParseShowI64(y);
    BackgroundFields(f, ShowInt(x), ShowInt(y));
  }
}
