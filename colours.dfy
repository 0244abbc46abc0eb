/** `parse` of src/parse/colours.rs: the lines of a `[Colours]` section,
    each a `ComboN : r,g,b` entry.  The colour text of a line is what follows
    its last colon (the whole line when it has none), trimmed.  The parallel
    iteration of the source keeps line order and is modelled as a
    sequential map. */
module Colours {
  import opened Results
  import opened Text
  import opened Parts
  import opened Colors

  /** The piece `split(':').next_back()` yields, which always exists. */
  function ColourPiece(line: string): string
  {
    LastPiece(line, ':')
  }

  /** The text handed to the colour decoder. */
  function ColourText(line: string): string
  {
    Trim(ColourPiece(line))
  }

  /** One line: its colour, or an error naming its untrimmed piece (the
      colour decoder's own message is dropped). */
  function LineOf(line: string): (r: Outcome<Color>)
    ensures !r.Panic?
  {
    match ColorOf(ColourText(line))
    case Ok(c) => Ok(c)
    case _ => Err(InvalidLine(ColourPiece(line), "[Colours]"))
  }

  /** A line is decoded exactly when its colour text is, to the same colour. */
  lemma LineOfColor(line: string)
    ensures LineOf(line).Ok? <==> ColorOf(ColourText(line)).Ok?
    ensures LineOf(line).Ok? ==> LineOf(line) == ColorOf(ColourText(line))
  {
  }

  /** The outcome of each line, in line order. */
  function LineOutcomes(lines: seq<string>): seq<Outcome<Color>>
  {
    Map(LineOf, lines)
  }

  /** `parse`: the joined errors of the failing lines if there are any, else
      one colour per line. */
  function ParseColours(lines: seq<string>): (r: Outcome<seq<Color>>)
    ensures !r.Panic?
    ensures r.Ok? ==> |r.value| == |lines| && forall i :: 0 <= i < |lines| ==> LineOf(lines[i]) == Ok(r.value[i])
  {
    var outcomes := LineOutcomes(lines);
    if exists i :: 0 <= i < |outcomes| && outcomes[i].Err? then Err(Joined(Failures(outcomes)))
    else Ok(Values(outcomes))
  }

  /** The section decodes exactly when every line's colour text does, and
      then holds their colours in line order; otherwise the error joins the
      errors of the failing lines, each naming its piece, in line order.  It
      never panics. */
  lemma ParseColoursShape(lines: seq<string>)
    ensures ParseColours(lines).Ok? <==> forall i :: 0 <= i < |lines| ==> ColorOf(ColourText(lines[i])).Ok?
    ensures ParseColours(lines).Ok? ==>
      |ParseColours(lines).value| == |lines| &&
      forall i :: 0 <= i < |lines| ==> ColorOf(ColourText(lines[i])) == Ok(ParseColours(lines).value[i])
    ensures !ParseColours(lines).Ok? ==>
      ParseColours(lines) == Err(Joined(Failures(LineOutcomes(lines)))) && Failures(LineOutcomes(lines)) != []
  {
    var outcomes := LineOutcomes(lines);
    forall i | 0 <= i < |lines|
      ensures outcomes[i].Ok? <==> ColorOf(ColourText(lines[i])).Ok?
      ensures outcomes[i].Ok? ==> ColorOf(ColourText(lines[i])) == outcomes[i]
      ensures !outcomes[i].Panic?
    {
      LineOfColor(lines[i]);
    }
    FailuresNone(outcomes);
  }

  /** The errors are those of the failing lines in line order: each line
      contributes its own, one after the other. */
  lemma LineFailures(a: seq<string>, b: seq<string>)
    ensures Failures(LineOutcomes(a + b)) == Failures(LineOutcomes(a)) + Failures(LineOutcomes(b))
  {
    MapAppend(LineOf, a, b);
    FailuresAppend(LineOutcomes(a), LineOutcomes(b));
  }

  /** A single line fails with the error naming its piece. */
  lemma LineFailure(line: string)
    requires !ColorOf(ColourText(line)).Ok?
    ensures Failures(LineOutcomes([line])) == [InvalidLine(ColourPiece(line), "[Colours]")]
  {
    MapSingle(LineOf, line);
    FailuresSingle(LineOf(line));
  }

  /** The piece is the text after the last colon, or the whole line. */
  lemma ColourPieceSuffix(line: string)
    ensures ':' !in line ==> ColourPiece(line) == line
    ensures ':' in line ==>
      var n := |ColourPiece(line)|;
      n < |line| && line[|line| - n - 1] == ':' && line[|line| - n..] == ColourPiece(line)
  {
    LastPieceSuffix(line, ':');
    if ':' !in line {
      SplitNoDelimiter(line, ':');
    }
  }

  /** A `ComboN : r,g,b` entry is decoded from its `r,g,b`, whatever the
      name before the colon holds. */
  lemma ColourAfterPrefix(name: string, c: string)
    requires ':' !in c
    ensures ColourPiece(name + ":" + c) == c
  {
    LastPieceAfter(name, c, ':');
  }
}
