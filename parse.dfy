/** `parse_str` of src/parse.rs: one pass over the trimmed, non-blank lines
    of a `.osu` document that tracks the current section, dispatches the
    `[Preamble]` and `[General]` lines, and then assembles the requested
    groups from the accumulated fields.

    The pass is `ParseStr`, a loop over the lines that updates the section,
    the list of headers still recognisable and the accumulators; it is
    proved equal to `Decode`, which folds `Step` over the lines and then
    calls `Assemble`. */
module Parse {
  import opened Results
  import opened Text
  import opened Numbers
  import opened Parts
  import opened TimingPoints
  import opened HitObjects

  /** `Ratio<i64>`, a numerator over a denominator. */
  datatype Ratio = Ratio(numer: int, denom: int)

  datatype Mode = Osu | Taiko | Catch | Mania

  /** Which of the six groups a caller asks for. */
  datatype Request = Request(chart: bool, customization: bool, difficulty: bool, editor: bool,
                             filedata: bool, metadata: bool)

  // The assembled groups.

  datatype Chart = Chart(mode: Mode, stackLeniency: Ratio, sliderMultiplier: Ratio, sliderTickRate: Ratio,
                         timingPoints: seq<TimingPoint>, hitObjects: seq<HitObject>)

  datatype Customization = Customization(
    sampleSet: SampleSet, letterboxInBreaks: bool, storyFireInFront: bool, useSkinSprites: bool,
    alwaysShowPlayField: bool, overlayPosition: OverlayPosition, skinPreference: Option<string>,
    epilepsyWarning: bool, countdown: Countdown, specialStyle: bool, widescreenStoryboard: bool,
    samplesMatchPlaybackRate: bool, backgrounds: seq<Background>, breaks: seq<Break>, colors: seq<Color>)

  datatype Difficulty = Difficulty(circleSize: Byte, hpdrainRate: Byte, overallDifficulty: Byte, approachRate: Byte)

  /** Every field of the editor group is optional, so its accumulators are
      the group itself. */
  datatype Editor = Editor(bookmarks: seq<int>, distanceSpacing: Option<Ratio>, beatDivisor: Option<int>,
                           gridSize: Option<int>, timelineZoom: Option<Ratio>)

  datatype Filedata = Filedata(fileFormat: Byte, audioFilename: string, audioLeadIn: int,
                               audioHash: Option<string>, previewTime: int, countdownOffset: int)

  /** The metadata group; its fields are all optional text. */
  datatype Metadata = Metadata(title: Option<string>, titleUnicode: Option<string>, artist: Option<string>,
                               artistUnicode: Option<string>, creator: Option<string>, version: Option<string>,
                               source: Option<string>, tags: Option<string>, beatmapId: Option<string>,
                               beatmapSetId: Option<string>)

  /** The tuple `parse_str` returns: `None` for each group not requested. */
  datatype Groups = Groups(chart: Option<Chart>, customization: Option<Customization>,
                           difficulty: Option<Difficulty>, editor: Option<Editor>, filedata: Option<Filedata>,
                           metadata: Option<Metadata>)

  // The accumulators of the pass, one record per group.

  datatype ChartFields = ChartFields(mode: Option<Mode>, stackLeniency: Option<Ratio>,
                                     sliderMultiplier: Option<Ratio>, sliderTickRate: Option<Ratio>,
                                     timingPoints: seq<TimingPoint>, hitObjects: seq<HitObject>)

  datatype CustomizationFields = CustomizationFields(
    sampleSet: Option<SampleSet>, letterboxInBreaks: Option<bool>, storyFireInFront: Option<bool>,
    useSkinSprites: Option<bool>, alwaysShowPlayField: Option<bool>, overlayPosition: Option<OverlayPosition>,
    skinPreference: Option<string>, epilepsyWarning: Option<bool>, countdown: Option<Countdown>,
    specialStyle: Option<bool>, widescreenStoryboard: Option<bool>, samplesMatchPlaybackRate: Option<bool>,
    backgrounds: seq<Background>, breaks: seq<Break>, colors: seq<Color>)

  datatype DifficultyFields = DifficultyFields(circleSize: Option<Byte>, hpdrainRate: Option<Byte>,
                                               overallDifficulty: Option<Byte>, approachRate: Option<Byte>)

  datatype FiledataFields = FiledataFields(fileFormat: Option<Byte>, audioFilename: Option<string>,
                                           audioLeadIn: Option<int>, audioHash: Option<string>,
                                           previewTime: Option<int>, countdownOffset: Option<int>)

  datatype Fields = Fields(chart: ChartFields, customization: CustomizationFields, difficulty: DifficultyFields,
                           editor: Editor, filedata: FiledataFields, metadata: Metadata)

  /** Every accumulator before the first line: unset, or an empty list. */
  const InitialFields: Fields := Fields(
    ChartFields(None, None, None, None, [], []),
    CustomizationFields(None, None, None, None, None, None, None, None, None, None, None, None, [], [], []),
    DifficultyFields(None, None, None, None),
    Editor([], None, None, None, None),
    FiledataFields(None, None, None, None, None, None),
    Metadata(None, None, None, None, None, None, None, None, None, None))

  /** The section headers, in their canonical order. */
  const Headers: seq<string> :=
    ["[General]", "[Editor]", "[Metadata]", "[Difficulty]", "[Events]", "[TimingPoints]", "[Colours]",
     "[HitObjects]"]

  /** The implicit section before the first header. */
  const Preamble: string := "[Preamble]"

  /** Where the pass stands: the current section, the headers it can still
      recognise, and the accumulators. */
  datatype State = State(section: string, headers: seq<string>, fields: Fields)

  const InitialState: State := State(Preamble, Headers, InitialFields)

  /** `iter().position(|x| *x == key)`: the first index holding `key`. */
  function Position(headers: seq<string>, key: string): (r: Option<nat>)
    ensures r.Some? ==>
      r.value < |headers| && headers[r.value] == key && forall j :: 0 <= j < r.value ==> headers[j] != key
    ensures r.None? <==> key !in headers
  {
    if headers == [] then None
    else if headers[0] == key then Some(0)
    else
      var rest := Position(headers[1..], key);
      assert forall j :: 1 <= j < |headers| ==> headers[j] == headers[1..][j - 1];
      if rest.Some? then Some(rest.value + 1) else None
  }

  /** What one line does to the pass: carry on, end the pass (`break`), or
      fail (an early `return Err`). */
  datatype Move = Continue(state: State) | Stop(state: State) | Fail(error: Error)

  /** One line.  A line that, with its non-ASCII characters removed, is one
      of the headers still recognisable switches to that section and keeps
      only the headers before it.  Otherwise the line belongs to the current
      section: a `[Preamble]` line is examined only when file data is
      requested, a `[General]` line only when the chart, customization or
      file data is, and lines of every other section are passed over. */
  function Step(st: State, line: string, req: Request): (r: Move)
    ensures !r.Fail? ==> r.state.headers <= st.headers
    ensures r.Stop? ==> st.section == Preamble && r.state.headers == st.headers
    ensures r.Fail? ==> r.error in {InvalidLine(line, Preamble), InvalidLine(line, "[General]"), InvalidToken("Mode", "Mode")}
  {
    var position := Position(st.headers, AsciiOnly(line));
    if position.Some? then
      Continue(State(st.headers[position.value], st.headers[..position.value], st.fields))
    else if st.section == Preamble then
      if !req.filedata then Continue(st)
      else
        match SplitOnce(line, 'v')
        case None => Fail(InvalidLine(line, Preamble))
        case Some((_, rhs)) =>
          match ParseU8(rhs)
          case Some(version) =>
            Stop(st.(fields := st.fields.(filedata := st.fields.filedata.(fileFormat := Some(version)))))
          case None => Continue(st)
    else if st.section == "[General]" then
      if !(req.chart || req.customization || req.filedata) then Continue(st)
      else
        match SplitOnce(line, ':')
        case None => Fail(InvalidLine(line, "[General]"))
        case Some((key, _)) =>
          // A `Mode` key is matched again against the digits 0-3, which it
          // never equals.
          if req.chart && Trim(key) == "Mode" then Fail(InvalidToken("Mode", "Mode"))
          else Continue(st)
    else Continue(st)
  }

  /** The pass over the lines from a given state, up to a stop or a failure. */
  function Scan(lines: seq<string>, st: State, req: Request): (r: Outcome<State>)
    ensures !r.Panic?
  {
    if lines == [] then Ok(st)
    else
      match Step(st, lines[0], req)
      case Continue(next) => Scan(lines[1..], next, req)
      case Stop(last) => Ok(last)
      case Fail(e) => Err(e)
  }

  /** `unwrap_or_else(|| default)`. */
  function Or<T>(o: Option<T>, default: T): (r: T)
    ensures o.Some? ==> r == o.value
    ensures o.None? ==> r == default
  {
    if o.Some? then o.value else default
  }

  /** A requested group, or `None`; a group that cannot be built fails. */
  function Requested<T>(wanted: bool, group: Outcome<T>): (r: Outcome<Option<T>>)
    ensures !wanted ==> r == Ok(None)
    ensures wanted && group.Ok? ==> r == Ok(Some(group.value))
    ensures wanted && !group.Ok? ==> r == group.Propagate()
  {
    if !wanted then Ok(None) else if group.Ok? then Ok(Some(group.value)) else group.Propagate()
  }

  predicate ChartComplete(c: ChartFields)
  {
    c.mode.Some? && c.stackLeniency.Some? && c.sliderMultiplier.Some? && c.sliderTickRate.Some?
  }

  /** The chart, or the first of its four required fields that is unset. */
  function AssembleChart(c: ChartFields): (r: Outcome<Chart>)
    ensures r.Ok? <==> ChartComplete(c)
    ensures r.Ok? ==>
      r.value == Chart(c.mode.value, c.stackLeniency.value, c.sliderMultiplier.value, c.sliderTickRate.value,
                       c.timingPoints, c.hitObjects)
    ensures c.mode.None? ==> r == Err(MissingField("mode", "chart"))
    ensures c.mode.Some? && c.stackLeniency.None? ==> r == Err(MissingField("stack_leniency", "chart"))
    ensures c.mode.Some? && c.stackLeniency.Some? && c.sliderMultiplier.None? ==>
      r == Err(MissingField("slider_multiplier", "chart"))
    ensures c.mode.Some? && c.stackLeniency.Some? && c.sliderMultiplier.Some? && c.sliderTickRate.None? ==>
      r == Err(MissingField("slider_tick_rate", "chart"))
  {
    if c.mode.None? then Err(MissingField("mode", "chart"))
    else if c.stackLeniency.None? then Err(MissingField("stack_leniency", "chart"))
    else if c.sliderMultiplier.None? then Err(MissingField("slider_multiplier", "chart"))
    else if c.sliderTickRate.None? then Err(MissingField("slider_tick_rate", "chart"))
    else Ok(Chart(c.mode.value, c.stackLeniency.value, c.sliderMultiplier.value, c.sliderTickRate.value,
                  c.timingPoints, c.hitObjects))
  }

  /** The customization group never fails: each unset field takes its
      default. */
  function AssembleCustomization(c: CustomizationFields): (r: Customization)
    ensures c == InitialFields.customization ==> r == DefaultCustomization
    ensures r.sampleSet == if c.sampleSet.Some? then c.sampleSet.value else SampleSet.Normal
    ensures r.overlayPosition == if c.overlayPosition.Some? then c.overlayPosition.value else NoChange
    ensures r.countdown == if c.countdown.Some? then c.countdown.value else Countdown.Normal
    // Every flag is off unless set, except the story fire, which is on
    // unless set off.
    ensures r.letterboxInBreaks <==> c.letterboxInBreaks == Some(true)
    ensures r.storyFireInFront <==> c.storyFireInFront != Some(false)
    ensures r.useSkinSprites <==> c.useSkinSprites == Some(true)
    ensures r.alwaysShowPlayField <==> c.alwaysShowPlayField == Some(true)
    ensures r.epilepsyWarning <==> c.epilepsyWarning == Some(true)
    ensures r.specialStyle <==> c.specialStyle == Some(true)
    ensures r.widescreenStoryboard <==> c.widescreenStoryboard == Some(true)
    ensures r.samplesMatchPlaybackRate <==> c.samplesMatchPlaybackRate == Some(true)
    ensures r.skinPreference == c.skinPreference
    ensures r.backgrounds == c.backgrounds && r.breaks == c.breaks && r.colors == c.colors
  {
    Customization(Or(c.sampleSet, SampleSet.Normal), Or(c.letterboxInBreaks, false),
                  Or(c.storyFireInFront, true), Or(c.useSkinSprites, false), Or(c.alwaysShowPlayField, false),
                  Or(c.overlayPosition, NoChange), c.skinPreference, Or(c.epilepsyWarning, false),
                  Or(c.countdown, Countdown.Normal), Or(c.specialStyle, false), Or(c.widescreenStoryboard, false),
                  Or(c.samplesMatchPlaybackRate, false), c.backgrounds, c.breaks, c.colors)
  }

  predicate DifficultyComplete(d: DifficultyFields)
  {
    d.circleSize.Some? && d.hpdrainRate.Some? && d.overallDifficulty.Some? && d.approachRate.Some?
  }

  /** The difficulty, or the first of its four fields that is unset. */
  function AssembleDifficulty(d: DifficultyFields): (r: Outcome<Difficulty>)
    ensures r.Ok? <==> DifficultyComplete(d)
    ensures r.Ok? ==>
      r.value == Difficulty(d.circleSize.value, d.hpdrainRate.value, d.overallDifficulty.value, d.approachRate.value)
    ensures d.circleSize.None? ==> r == Err(MissingField("circle_size", "difficulty"))
    ensures d.circleSize.Some? && d.hpdrainRate.None? ==> r == Err(MissingField("hpdrain_rate", "difficulty"))
    ensures d.circleSize.Some? && d.hpdrainRate.Some? && d.overallDifficulty.None? ==>
      r == Err(MissingField("overall_difficulty", "difficulty"))
    ensures d.circleSize.Some? && d.hpdrainRate.Some? && d.overallDifficulty.Some? && d.approachRate.None? ==>
      r == Err(MissingField("approach_rate", "difficulty"))
  {
    if d.circleSize.None? then Err(MissingField("circle_size", "difficulty"))
    else if d.hpdrainRate.None? then Err(MissingField("hpdrain_rate", "difficulty"))
    else if d.overallDifficulty.None? then Err(MissingField("overall_difficulty", "difficulty"))
    else if d.approachRate.None? then Err(MissingField("approach_rate", "difficulty"))
    else Ok(Difficulty(d.circleSize.value, d.hpdrainRate.value, d.overallDifficulty.value, d.approachRate.value))
  }

  predicate FiledataComplete(f: FiledataFields)
  {
    f.fileFormat.Some? && f.audioFilename.Some?
  }

  /** The file data, or the first of its two required fields that is unset;
      the optional numbers take their defaults. */
  function AssembleFiledata(f: FiledataFields): (r: Outcome<Filedata>)
    ensures r.Ok? <==> FiledataComplete(f)
    ensures f.fileFormat.None? ==> r == Err(MissingField("file_format", "filedata"))
    ensures f.fileFormat.Some? && f.audioFilename.None? ==> r == Err(MissingField("audio_filename", "filedata"))
    ensures r.Ok? ==>
      && r.value.fileFormat == f.fileFormat.value && r.value.audioFilename == f.audioFilename.value
      && r.value.audioHash == f.audioHash
      && r.value.audioLeadIn == (if f.audioLeadIn.Some? then f.audioLeadIn.value else 0)
      && r.value.previewTime == (if f.previewTime.Some? then f.previewTime.value else -1)
      && r.value.countdownOffset == (if f.countdownOffset.Some? then f.countdownOffset.value else 0)
  {
    if f.fileFormat.None? then Err(MissingField("file_format", "filedata"))
    else if f.audioFilename.None? then Err(MissingField("audio_filename", "filedata"))
    else Ok(Filedata(f.fileFormat.value, f.audioFilename.value, Or(f.audioLeadIn, 0), f.audioHash,
                     Or(f.previewTime, -1), Or(f.countdownOffset, 0)))
  }

  /** Whether every group the request names can be built from `f`. */
  predicate Buildable(f: Fields, req: Request)
  {
    && (req.chart ==> ChartComplete(f.chart))
    && (req.difficulty ==> DifficultyComplete(f.difficulty))
    && (req.filedata ==> FiledataComplete(f.filedata))
  }

  /** The groups, built in the order chart, customization, difficulty,
      editor, file data, metadata; the first that cannot be built decides
      the error. */
  function Assemble(f: Fields, req: Request): (r: Outcome<Groups>)
    ensures r.Ok? <==> Buildable(f, req)
    ensures !r.Ok? ==> r.Err? && r.error.MissingField?
    ensures r.Ok? ==>
      && (r.value.chart.Some? <==> req.chart) && (r.value.customization.Some? <==> req.customization)
      && (r.value.difficulty.Some? <==> req.difficulty) && (r.value.editor.Some? <==> req.editor)
      && (r.value.filedata.Some? <==> req.filedata) && (r.value.metadata.Some? <==> req.metadata)
    // Each requested group is the one built from its accumulators.
    ensures r.Ok? ==>
      r.value == Groups(if req.chart then Some(AssembleChart(f.chart).value) else None,
                        if req.customization then Some(AssembleCustomization(f.customization)) else None,
                        if req.difficulty then Some(AssembleDifficulty(f.difficulty).value) else None,
                        if req.editor then Some(f.editor) else None,
                        if req.filedata then Some(AssembleFiledata(f.filedata).value) else None,
                        if req.metadata then Some(f.metadata) else None)
    ensures req.chart && !ChartComplete(f.chart) ==> r == AssembleChart(f.chart).Propagate()
    ensures !(req.chart && !ChartComplete(f.chart)) && req.difficulty && !DifficultyComplete(f.difficulty) ==>
      r == AssembleDifficulty(f.difficulty).Propagate()
    ensures
      (!(req.chart && !ChartComplete(f.chart)) && !(req.difficulty && !DifficultyComplete(f.difficulty)) &&
       req.filedata && !FiledataComplete(f.filedata)) ==> r == AssembleFiledata(f.filedata).Propagate()
  {
    var chart := Requested(req.chart, AssembleChart(f.chart));
    var difficulty := Requested(req.difficulty, AssembleDifficulty(f.difficulty));
    var filedata := Requested(req.filedata, AssembleFiledata(f.filedata));
    if !chart.Ok? then chart.Propagate()
    else if !difficulty.Ok? then difficulty.Propagate()
    else if !filedata.Ok? then filedata.Propagate()
    else
      Ok(Groups(chart.value, if req.customization then Some(AssembleCustomization(f.customization)) else None,
                difficulty.value, if req.editor then Some(f.editor) else None, filedata.value,
                if req.metadata then Some(f.metadata) else None))
  }

  /** `parse_str`: the pass over the document's lines, then the assembly. */
  function Decode(s: string, req: Request): (r: Outcome<Groups>)
    ensures !r.Panic?
  {
    var scanned := Scan(Lines(s), InitialState, req);
    if scanned.Ok? then Assemble(scanned.value.fields, req) else scanned.Propagate()
  }

  /** The pass from line `i` on is the step at line `i`, then the pass from
      line `i + 1` on. */
  lemma ScanUnfold(lines: seq<string>, i: nat, st: State, req: Request)
    requires i < |lines|
    ensures Scan(lines[i..], st, req) ==
      match Step(st, lines[i], req)
      case Continue(next) => Scan(lines[i + 1..], next, req)
      case Stop(last) => Ok(last)
      case Fail(e) => Err(e)
  {
    assert lines[i..][0] == lines[i] && lines[i..][1..] == lines[i + 1..];
  }

  /** The body of the loop over the lines, for one line. */
  method DecodeLine(st: State, line: string, req: Request) returns (m: Move)
    ensures m == Step(st, line, req)
  {
    var position := Position(st.headers, AsciiOnly(line));
    if position.Some? {
      return Continue(State(st.headers[position.value], st.headers[..position.value], st.fields));
    }
    m := Continue(st);
    if st.section == Preamble {
      if req.filedata {
        var split := SplitOnce(line, 'v');
        if split.Some? {
          var version := ParseU8(split.value.1);
          if version.Some? {
            m := Stop(st.(fields := st.fields.(filedata := st.fields.filedata.(fileFormat := Some(version.value)))));
          }
        } else {
          m := Fail(InvalidLine(line, st.section));
        }
      }
    } else if st.section == "[General]" {
      if req.chart || req.customization || req.filedata {
        var split := SplitOnce(line, ':');
        if split.Some? {
          var key := Trim(split.value.0);
          if req.chart && key == "Mode" {
            m := Fail(InvalidToken(key, "Mode"));
          }
        } else {
          m := Fail(InvalidLine(line, st.section));
        }
      }
    }
  }

  /** `parse_str`, step by step: the current section, the recognisable
      headers and the accumulators are updated line by line; a failing line
      returns at once, and a file-format version ends the pass early. */
  method ParseStr(s: string, req: Request) returns (r: Outcome<Groups>)
    ensures r == Decode(s, req)
  {
    var lines := Lines(s);
    var st := InitialState;
    var i := 0;
    while i < |lines|
      invariant 0 <= i <= |lines|
      invariant Scan(lines, InitialState, req) == Scan(lines[i..], st, req)
    {
      var m := DecodeLine(st, lines[i], req);
      ScanUnfold(lines, i, st, req);
      match m {
        case Continue(next) =>
          st := next;
        case Stop(last) =>
          st := last;
          break;
        case Fail(e) =>
          return Err(e);
      }
      i := i + 1;
    }
    assert Scan(lines, InitialState, req) == Ok(st);
    r := Assemble(st.fields, req);
  }

  // The header list.

  /** The pass is consistent when the recognisable headers are the first
      few canonical ones and the section is the header right after them
      (the preamble while all of them are left). */
  predicate Consistent(st: State)
  {
    && |st.headers| <= |Headers|
    && st.headers == Headers[..|st.headers|]
    && st.section == if |st.headers| == |Headers| then Preamble else Headers[|st.headers|]
  }

  lemma HeadersDistinct()
    ensures forall i, j :: 0 <= i < j < |Headers| ==> Headers[i] != Headers[j]
  {
  }

  /** The first `p` of the canonical headers never hold the header at `p`. */
  lemma HeaderPrefix(headers: seq<string>, p: nat)
    requires |headers| <= |Headers| && headers == Headers[..|headers|] && p < |headers|
    ensures headers[p] == Headers[p] && headers[..p] == Headers[..p] && Headers[p] !in Headers[..p]
  {
    HeadersDistinct();
    assert forall j :: 0 <= j < p ==> Headers[..p][j] == Headers[j];
  }

  /** A header match at index `p` switches to that header and leaves
      exactly the first `p` headers, a strictly shorter list that no longer
      holds the matched header. */
  lemma HeaderMatch(st: State, line: string, req: Request)
    requires Consistent(st) && Position(st.headers, AsciiOnly(line)).Some?
    ensures var p := Position(st.headers, AsciiOnly(line)).value;
      && p < |st.headers|
      && Step(st, line, req) == Continue(State(Headers[p], Headers[..p], st.fields))
      && AsciiOnly(line) !in Headers[..p]
      && Consistent(Step(st, line, req).state)
  {
    HeaderPrefix(st.headers, Position(st.headers, AsciiOnly(line)).value);
  }

  /** Any other line leaves the section and the headers alone. */
  lemma OtherLine(st: State, line: string, req: Request)
    requires Position(st.headers, AsciiOnly(line)).None? && !Step(st, line, req).Fail?
    ensures Step(st, line, req).state.section == st.section && Step(st, line, req).state.headers == st.headers
  {
  }

  /** A line that is not a recognisable header, in a section other than
      `[Preamble]` and `[General]`, is passed over: nothing fails and nothing
      changes, whatever is requested. */
  lemma OtherSection(st: State, line: string, req: Request)
    requires st.section != Preamble && st.section != "[General]"
    requires Position(st.headers, AsciiOnly(line)).None?
    ensures Step(st, line, req) == Continue(st)
  {
  }

  /** One line keeps the pass consistent. */
  lemma StepHeaders(st: State, line: string, req: Request)
    requires Consistent(st)
    ensures !Step(st, line, req).Fail? ==> Consistent(Step(st, line, req).state)
  {
    if Position(st.headers, AsciiOnly(line)).Some? {
      HeaderMatch(st, line, req);
    } else if !Step(st, line, req).Fail? {
      OtherLine(st, line, req);
    }
  }

  /** Of two consistent states, the one with fewer headers has a prefix of
      the other's. */
  lemma ConsistentPrefix(a: State, b: State)
    requires Consistent(a) && Consistent(b) && |a.headers| <= |b.headers|
    ensures a.headers == b.headers[..|a.headers|]
  {
  }

  /** Over any run of lines the pass stays consistent and the recognisable
      headers only shrink, each list a prefix of the one before. */
  lemma ScanHeaders(lines: seq<string>, st: State, req: Request)
    requires Consistent(st)
    ensures Scan(lines, st, req).Ok? ==>
      var last := Scan(lines, st, req).value;
      Consistent(last) && |last.headers| <= |st.headers| && last.headers == st.headers[..|last.headers|]
  {
    if Scan(lines, st, req).Ok? {
      ScanConsistent(lines, st, req);
      ConsistentPrefix(Scan(lines, st, req).value, st);
    }
  }

  lemma {:induction false} ScanConsistent(lines: seq<string>, st: State, req: Request)
    requires Consistent(st)
    ensures Scan(lines, st, req).Ok? ==>
      Consistent(Scan(lines, st, req).value) && |Scan(lines, st, req).value.headers| <= |st.headers|
  {
    if lines != [] {
      StepHeaders(st, lines[0], req);
      match Step(st, lines[0], req)
      case Continue(next) =>
        ScanConsistent(lines[1..], next, req);
      case Stop(_) =>
      case Fail(_) =>
    }
  }

  /** Once `[General]` has been reached no header is recognised any more:
      the pass stays in `[General]` to the end. */
  lemma {:induction false} GeneralIsLast(lines: seq<string>, st: State, req: Request)
    requires Consistent(st) && st.section == "[General]"
    ensures st.headers == []
    ensures Scan(lines, st, req).Ok? ==>
      Scan(lines, st, req).value.section == "[General]" && Scan(lines, st, req).value.headers == []
  {
    HeadersDistinct();
    assert Headers[0] == "[General]";
    if lines != [] {
      StepHeaders(st, lines[0], req);
      match Step(st, lines[0], req)
      case Continue(next) =>
        GeneralIsLast(lines[1..], next, req);
      case Stop(_) =>
      case Fail(_) =>
    }
  }

  /** A header is recognised through the non-ASCII characters around it,
      such as a byte-order mark. */
  lemma ByteOrderMarkHeader(req: Request)
    ensures Step(InitialState, ['\U{FEFF}'] + "[General]", req) == Continue(State("[General]", [], InitialFields))
  {
    var header := "[General]";
    assert forall i :: 0 <= i < |header| ==> header[i] < '\U{0080}';
    AsciiOnlyDrop('\U{FEFF}', header);
    assert Position(Headers, header) == Some(0);
  }

  // The line dispatch.

  /** A `[Preamble]` line that is not a header: examined only when file data
      is requested, where a line without `v` is an invalid line. */
  lemma PreambleLine(st: State, line: string, req: Request)
    requires st.section == Preamble && Position(st.headers, AsciiOnly(line)).None?
    ensures !req.filedata ==> Step(st, line, req) == Continue(st)
    ensures req.filedata && 'v' !in line ==> Step(st, line, req) == Fail(InvalidLine(line, Preamble))
  {
  }

  /** A `[Preamble]` line holding a `v`: the text after the first `v` is the
      file format version when it is a u8, and then the pass ends; otherwise
      the line is passed over. */
  lemma PreambleVersion(st: State, before: string, after: string, req: Request)
    requires st.section == Preamble && 'v' !in before && req.filedata
    requires Position(st.headers, AsciiOnly(before + "v" + after)).None?
    ensures ParseU8(after).Some? ==>
      Step(st, before + "v" + after, req) ==
      Stop(st.(fields := st.fields.(filedata := st.fields.filedata.(fileFormat := ParseU8(after)))))
    ensures ParseU8(after).None? ==> Step(st, before + "v" + after, req) == Continue(st)
  {
    SplitOnceAt(before, after, 'v');
  }

  /** A `[General]` line that is not a header: examined only when the chart,
      customization or file data is requested, where a line without `:` is
      an invalid line. */
  lemma GeneralLine(st: State, line: string, req: Request)
    requires st.section == "[General]" && Position(st.headers, AsciiOnly(line)).None?
    ensures !(req.chart || req.customization || req.filedata) ==> Step(st, line, req) == Continue(st)
    ensures (req.chart || req.customization || req.filedata) && ':' !in line ==>
      Step(st, line, req) == Fail(InvalidLine(line, "[General]"))
  {
  }

  /** A `[General]` entry `key:value`: with the chart requested a `Mode` key
      is rejected as an invalid `Mode` token whatever its value; every other
      key, and every key when the chart is not requested, is passed over. */
  lemma GeneralEntry(st: State, key: string, value: string, req: Request)
    requires st.section == "[General]" && ':' !in key && (req.chart || req.customization || req.filedata)
    requires Position(st.headers, AsciiOnly(key + ":" + value)).None?
    ensures req.chart && Trim(key) == "Mode" ==> Step(st, key + ":" + value, req) == Fail(InvalidToken("Mode", "Mode"))
    ensures !(req.chart && Trim(key) == "Mode") ==> Step(st, key + ":" + value, req) == Continue(st)
  {
    SplitOnceAt(key, value, ':');
  }

  // The accumulators.

  /** Only the file format can ever be set: every other accumulator keeps
      its initial value. */
  predicate OnlyFormat(f: Fields)
  {
    f == InitialFields.(filedata := InitialFields.filedata.(fileFormat := f.filedata.fileFormat))
  }

  /** No line sets anything but the file format, and without file data
      requested no line sets anything at all. */
  lemma {:induction false} ScanFields(lines: seq<string>, st: State, req: Request)
    requires OnlyFormat(st.fields)
    ensures Scan(lines, st, req).Ok? ==> OnlyFormat(Scan(lines, st, req).value.fields)
    ensures Scan(lines, st, req).Ok? && !req.filedata ==> Scan(lines, st, req).value.fields == st.fields
  {
    if lines != [] {
      match Step(st, lines[0], req)
      case Continue(next) =>
        ScanFields(lines[1..], next, req);
      case Stop(_) =>
      case Fail(_) =>
    }
  }

  /** Without the chart, customization or file data requested, no line is
      examined: the pass cannot fail, and changes no accumulator. */
  lemma {:induction false} ScanQuiet(lines: seq<string>, st: State, req: Request)
    requires !(req.chart || req.customization || req.filedata)
    ensures Scan(lines, st, req).Ok? && Scan(lines, st, req).value.fields == st.fields
  {
    if lines != [] {
      match Step(st, lines[0], req)
      case Continue(next) =>
        ScanQuiet(lines[1..], next, req);
      case Stop(_) =>
      case Fail(_) =>
    }
  }

  // The outcome of `parse_str`.

  /** Since no stack leniency, slider multiplier, slider tick rate,
      difficulty field or audio file name is ever set, a request for the
      chart, the difficulty or the file data always fails; when no line
      fails, the error is the first missing field of the first such group:
      for the file data, its audio file name when the preamble yielded a
      version, its file format otherwise. */
  lemma RequiredGroupsFail(s: string, req: Request)
    requires req.chart || req.difficulty || req.filedata
    ensures Decode(s, req).Err?
    ensures Scan(Lines(s), InitialState, req).Ok? && req.chart ==> Decode(s, req) == Err(MissingField("mode", "chart"))
    ensures Scan(Lines(s), InitialState, req).Ok? && !req.chart && req.difficulty ==>
      Decode(s, req) == Err(MissingField("circle_size", "difficulty"))
    ensures Scan(Lines(s), InitialState, req).Ok? && !req.chart && !req.difficulty ==>
      Decode(s, req) ==
        if Scan(Lines(s), InitialState, req).value.fields.filedata.fileFormat.Some?
        then Err(MissingField("audio_filename", "filedata"))
        else Err(MissingField("file_format", "filedata"))
  {
    ScanFields(Lines(s), InitialState, req);
  }

  /** Asking for the editor and metadata groups alone always succeeds:
      every other group is `None` and those two hold no value at all. */
  lemma QuietGroups(s: string, req: Request)
    requires !(req.chart || req.customization || req.difficulty || req.filedata)
    ensures Decode(s, req) ==
      Ok(Groups(None, None, None, if req.editor then Some(Editor([], None, None, None, None)) else None, None,
                if req.metadata then Some(Metadata(None, None, None, None, None, None, None, None, None, None))
                else None))
  {
    ScanQuiet(Lines(s), InitialState, req);
  }

  /** The customization group every document yields, since none of its
      fields is ever set: the sample set Normal, the story fire in front,
      no overlay change, the normal countdown, every other flag off, no skin
      preference and no backgrounds, breaks or colours. */
  const DefaultCustomization: Customization :=
    Customization(SampleSet.Normal, false, true, false, false, NoChange, None, false, Countdown.Normal,
                  false, false, false, [], [], [])

  /** Asking for the customization, with or without the editor and
      metadata groups, yields its defaults, unless a `[General]` line has
      no colon. */
  lemma CustomizationDefaults(s: string, req: Request)
    requires req.customization && !req.chart && !req.difficulty && !req.filedata
    ensures var r := Decode(s, req);
      var editor := if req.editor then Some(Editor([], None, None, None, None)) else None;
      var metadata := if req.metadata then Some(Metadata(None, None, None, None, None, None, None, None, None, None))
                      else None;
      && (r.Ok? ==> r.value == Groups(None, Some(DefaultCustomization), None, editor, None, metadata))
      && (r.Err? ==> r.error.InvalidLine? && r.error.section == "[General]")
  {
    ScanFields(Lines(s), InitialState, req);
    ScanCustomization(Lines(s), InitialState, req);
  }

  /** Without the chart or the file data requested, the one line that can
      fail is a `[General]` line without a colon. */
  lemma {:induction false} ScanCustomization(lines: seq<string>, st: State, req: Request)
    requires !req.chart && !req.filedata
    ensures var r := Scan(lines, st, req);
      r.Err? ==> r.error.InvalidLine? && r.error.section == "[General]"
  {
    if lines != [] {
      match Step(st, lines[0], req)
      case Continue(next) =>
        ScanCustomization(lines[1..], next, req);
      case Stop(_) =>
      case Fail(_) =>
    }
  }
}
