# The `.osu` beatmap reader, modelled in Dafny

This project models the decoding core of the Rust `osu_beatmap` crate. The crate reads osu! beatmap files (`.osu`), which are plain text split into `[Section]` blocks. The model covers four parts:

- The record decoders of `src/parseparts.rs` and `src/parts/`. They turn one comma-, colon- or pipe-separated line into a hit object (circle, slider, spinner), a timing point, a curve, a hit sample, a hit sound, a type field, a background or a break.
- The colour decoders: `Color::from_str` of `src/customization/color.rs` and the `[Colours]` line driver of `src/parse/colours.rs`.
- The `parse_str` pass of `src/parse.rs`. It tracks the current section over the trimmed, non-blank lines. It recognises headers against a list that shrinks. It dispatches `[Preamble]` and `[General]` lines. At the end it assembles the requested groups, with `MissingField` errors and fixed defaults.
- The default records of `src/parts.rs` and `src/collections/timing_point.rs`.

Each decoder becomes a function that returns an `Outcome`: `Ok(value)`, `Err(error)` for a returned error, or `Panic` for an `.expect`/`.unwrap` that fails. Integers are unbounded. The `i64` and `u8` ranges are explicit checks in `ParseI64` and `ParseU8`, which model Rust's `FromStr`:

- `i64`: an optional `+` or `-`, then one or more ASCII digits.
- `u8`: an optional `+`, then digits, with a value of at most 255.

The source updates state step by step in several places. Each of those is a method, with a loop where the source loops, proved equal to the function that states what it computes:

- `HitSound::from_str` (`HitSounds.DecodeHitSound`);
- the curve point loop (`Curves.DecodeCurve`);
- the slider's edge loops (`HitObjects.DecodeEdgeSounds`, `HitObjects.DecodeEdgeSets`);
- the `split_once` chain of `HitSample::from_str` (`Samples.DecodeHitSample`);
- the three `remove(0)` calls of `Color::from_str` (`Colors.DecodeColor`);
- the line loop of `parse_str` (`Parse.ParseStr`).

The modules follow the crate:

- `Results`: outcomes and errors.
- `Text`: `split`, `split_once`, `trim`, `lines`.
- `Numbers`: integer tokens.
- `Parts`: the shared records.
- `Tokens`: the enumerants and `Effects`.
- `TypeField`, `HitSounds`, `Samples`, `Curves`, `HitObjects`, `TimingPoints`, `Backgrounds`, `Breaks`: one module per record decoder.
- `Colors`, `Colours`: the colour decoder and the `[Colours]` driver.
- `Parse`: `parse_str`.

Two places where the code differs from what its comments and names suggest, and where the model follows the code:

- **The type field.** `format!("{:08b}")` writes the most significant bit first, so string position `i` holds bit `7 - i`. The value 1 therefore decodes as a mania hold and the value 128 as a circle (`TypeField.ParseTypeOne`, `TypeField.ParseType128`). The field comment at src/parts/_type.rs:8 ("0 circle, 1 slider, 3 spinner, 7 mania hold") reads like least-significant-first bit numbers.
- **Sections.** `sections.drain(..position).collect()` keeps the headers *before* the matched one. Once `[General]` has been seen, no header is recognised again (`Parse.GeneralIsLast`). So the header list does not step forward through the sections: everything after `[General]` is read as `[General]`.

Other behaviour of the code as written:

- **`Mode` key.** `Mode` is compared with the key rather than with the value, so a `Mode:` line with the chart requested is always an invalid `Mode` token.
- **Preamble version.** Finding a version in the preamble ends the whole pass (`break`).
- **Unset fields.** No stack leniency, slider multiplier, slider tick rate, difficulty field or audio file name is ever set. Requesting the chart, the difficulty or the file data therefore always fails (`Parse.RequiredGroupsFail`).

## Model

| member | source | states |
|---|---|---|
| Numbers.ParseI64 | src/parts/_break.rs:18-23 | an accepted `i64` token yields a value inside the i64 range |
| Numbers.ParseU8 | src/parts/_type.rs:20-27 | an accepted `u8` token yields a value in 0..255 |
| Numbers.ParseI64Digits | src/parseparts.rs:373-398 | an accepted i64 token is an optional sign and digits; a run of digits within range reads as its decimal value |
| Numbers.ParseU8Digits | src/customization/color.rs:18-21 | an accepted u8 token is an optional `+` and digits; a run of digits up to 255 reads as its value |
| Numbers.ParseI64Rejects | src/parseparts.rs:97-110 | a token holding a delimiter such as `,`, `:` or `|` is neither an i64 nor a u8 |
| Numbers.ParseShowI64 | src/parts/_break.rs:18-23 | every i64 reads back from its decimal form |
| Numbers.ParseShowU8 | src/customization/color.rs:18-21 | every u8 reads back from its decimal form |
| Numbers.ShowIntAvoids | src/parseparts.rs:97-110 | the decimal form of an integer holds no delimiter, so it can sit between separators |
| Tokens.ParseSampleSet | src/parseparts.rs:247-258 | only the codes 0-3 and the four variant names decode; anything else is an `InvalidToken(s, "SampleSet")` |
| Tokens.ParseSampleSetTokens | src/parseparts.rs:247-258 | each sample set decodes from both its code and its name |
| Tokens.ParseCountdown | src/parseparts.rs:58-69 | only the digits 0-3 decode, each to its countdown; any other token is an `InvalidToken(s, "Countdown")` |
| Tokens.ParseCountdownCode | src/parseparts.rs:58-69 | each countdown decodes from its digit |
| Tokens.ParseCurveType | src/parseparts.rs:120-131 | only B, C, L, P decode; any other token is an `InvalidToken(s, "CurveType")` |
| Tokens.ParseCurveTypeCode | src/parseparts.rs:120-131 | each curve type decodes from its letter |
| Tokens.ParseOverlayPosition | src/parseparts.rs:298-308 | only the three variant names decode; anything else is an `InvalidToken(s, "OverlayPosition")` |
| Tokens.ParseOverlayPositionName | src/parseparts.rs:298-308 | each overlay position decodes from its name |
| Tokens.ParseEffects | src/parseparts.rs:133-148 | exactly 0, 1, 4 and 5 decode; kiai iff 1 or 5; omit-barline iff 4 or 5; otherwise an `InvalidToken(s, "Effects")` |
| Tokens.ParseEffectsValue | src/parts.rs:43-48 | a decoded effects token is the number whose bit 0 is kiai and bit 2 is omit-barline |
| Tokens.ParseEffectsShow | src/parseparts.rs:133-148 | every effects pair reads back from its number |
| Parts.EffectsValue | src/parts.rs:43-48 | the number of an effects pair is 0, 1, 4 or 5, odd iff kiai, at least 4 iff omit-barline |
| Parts.HitSoundValue | src/parts.rs:84-90 | the number of a hit sound's four flags is below 16 |
| TypeField.Binary | src/parts/_type.rs:18-19 | the zero-padded binary form of width w has exactly w characters, each 0 or 1 |
| TypeField.Flags | src/parts/_type.rs:29-31 | position i of the flags is true iff character i is `1` |
| TypeField.ColorSkipOf | src/parts/_type.rs:43 | the colour skip is positions 4, 5, 6 read big-endian, so it is at most 7 |
| TypeField.TypeOfFlags | src/parts/_type.rs:32-48 | a flag combination that selects no single object type is an error that names the type token |
| TypeField.ParseType | src/parts/_type.rs:17-49 | an `InvalidToken(s, "u8")` exactly when the token is not a u8; any other failure is the bit-pattern error; never a panic |
| TypeField.BinaryBit | src/parts/_type.rs:18-31 | position i of the w-digit binary form is bit w-1-i of the value |
| TypeField.BinaryFlags | src/parts/_type.rs:18-31 | the eight flags are bits 7 down to 0 |
| TypeField.ParseTypeBits | src/parts/_type.rs:32-43 | decodes iff exactly one of bits 7, 6, 4, 0 is set, giving circle, slider, spinner, mania hold; new combo is bit 5; colour skip is bits 3..1 |
| TypeField.ParseTypeOne | src/parts/_type.rs:36 | the value 1 is a mania hold note |
| TypeField.ParseTypeTwo | src/parts/_type.rs:37-40 | the value 2 selects no object type and is an error |
| TypeField.ParseType128 | src/parts/_type.rs:33 | the value 128 is a circle |
| TypeField.ParseType256 | src/parts/_type.rs:20-27 | the value 256 is not a u8 |
| TypeField.ValueBinary | src/parts/_type.rs:18-31 | the flags of the binary form of a flag sequence's value are that sequence |
| TypeField.ParseTypeByte | src/parts/_type.rs:17-49 | every type record decodes from the value that encodes it |
| TypeField.TypeOfOwnFlags | src/parts/_type.rs:32-48 | the flags that encode a type record decode back to it |
| TypeField.ColorSkipBits | src/parts/_type.rs:43 | a colour skip reads back from its three bits |
| HitSounds.HitSoundOf | src/parseparts.rs:260-296 | panic iff not an i64; error iff above 15; otherwise the flags spell the value (a negative value sets none) |
| HitSounds.DecodeHitSound | src/parseparts.rs:260-296 | the step-by-step subtraction into the `bits` array computes `HitSoundOf` |
| HitSounds.SubtractiveBits | src/parseparts.rs:268-285 | subtracting 8, 4, 2 and 1 in turn finds the four low bits of a value below 16 |
| HitSounds.NibbleValue | src/parseparts.rs:268-292 | the four bits found spell the value back |
| HitSounds.HitSoundFromValue | src/parseparts.rs:260-296 | every hit sound reads back from its number |
| HitSounds.HitSoundDefaults | src/parseparts.rs:500-505 | "0" is no flag and "2" is the whistle alone |
| Samples.ParseHalfHitSample | src/parseparts.rs:150-172 | an error exactly when the token does not hold exactly one colon |
| Samples.ParseHalfHitSampleParts | src/parseparts.rs:156-170 | with one colon the two halves are the normal and the addition set, and a bad half panics |
| Samples.ParseHalfHitSampleCodes | src/parts.rs:55-62 | every pair of sets reads back from its codes; "0:0" is the default half sample |
| Samples.HitSampleColons | src/parseparts.rs:174-245 | fewer than three colons never decode; the only error is a `SplitError(s, ':')` |
| Samples.HitSampleOf | src/parseparts.rs:174-245 | `HitSample::from_str`: its only error is `SplitError(s, ':')`; the cases are stated by `HitSampleColons`, `HitSampleThreeColons` and `HitSampleFields` |
| Samples.DecodeHitSample | src/parseparts.rs:174-245 | the chain of reassigned `split_once` results computes `HitSampleOf` |
| Samples.HitSampleFields | src/parseparts.rs:174-245 | with four colons or more the fields are the pieces in order and the file name is the rest |
| Samples.StageNormalSet | src/parseparts.rs:180-192 | the first piece is the normal set, and a bad one panics |
| Samples.StageAdditionSet | src/parseparts.rs:193-205 | the second piece is the addition set, and a bad one panics |
| Samples.StageIndex | src/parseparts.rs:206-218 | the third piece is the index, and a bad one panics |
| Samples.StageVolume | src/parseparts.rs:219-236 | with a fourth colon the fourth piece is the volume, a bad one panics, and a rest that is not blank is the file name |
| Samples.HitSampleThreeColons | src/parseparts.rs:215-236 | with exactly three colons the volume stays 0 and no file name is read |
| Samples.HitSampleDefault | src/parts.rs:72-82 | the default hit sample is what "0:0:0:" and "0:0:0:0:" decode to |
| Curves.PointOutcomes | src/parseparts.rs:90-113 | one decoded point per pair token, in order |
| Curves.PointOf | src/parseparts.rs:90-113 | one `x:y` pair: an error names the whole curve text as an invalid `i64`; an accepted pair is the first and second `:` pieces read as `i64`; it panics exactly when x reads but there is no second piece; `PointOfShow` gives its round trip |
| Curves.DecodePoint | src/parseparts.rs:90-113 | one iteration of the point loop computes `PointOf` |
| Curves.DecodeCurve | src/parseparts.rs:71-118 | the decoder, a panic on a bad type letter and then the pair loop, computes `CurveOf` |
| Curves.DecodePairs | src/parseparts.rs:80-117 | the loop with its counter and early returns computes `CurveFrom` |
| Curves.CurveOf | src/parseparts.rs:71-118 | `Curve::from_str`: a type letter that is not a curve type panics, and a decoded curve has the type of the first `|` token; `CurvePoints` characterises its success |
| Curves.CurveFrom | src/parseparts.rs:80-117 | the pair loop after the type letter keeps that type; `CurveFromArity`, `CurveFromFail`, `CurveFromAll` and `CurveFromOk` state its outcomes |
| Curves.CurveFromArity | src/parseparts.rs:84-88 | a Perfect curve whose first two pairs decode fails on a third with the pair count |
| Curves.CurveFromFail | src/parseparts.rs:90-113 | the first failing pair decides the outcome |
| Curves.CurveFromAll | src/parseparts.rs:80-117 | pairs that all decode, within the limit, give the curve of their points |
| Curves.CurvePoints | src/parseparts.rs:71-118 | a curve decodes iff its type letter does, a perfect curve has at most two points, and every pair decodes; then the points are the pairs in order |
| Curves.CurveFromOk | src/parseparts.rs:80-117 | after the type letter, the points decode iff every pair does and a perfect curve has at most two of them; then they are the pairs in order |
| Curves.PointsOk | src/parseparts.rs:90-113 | a list of pairs decodes iff each pair does, to the points in order |
| Curves.PerfectAtMostTwo | src/parseparts.rs:84-88 | a perfect curve with a third point never decodes |
| Curves.PointOfShow | src/parseparts.rs:90-113 | every pair of i64 reads back from `x:y` |
| HitObjects.EdgeSoundOutcomes | src/parseparts.rs:485-496 | one decoded hit sound per pipe piece, in order |
| HitObjects.EdgeSetOutcomes | src/parseparts.rs:510-522 | one decoded half sample per pipe piece, in order |
| HitObjects.DefaultEdgesDecode | src/parseparts.rs:499-531 | the two default edge sounds and the two default edge sets are the decodings of "0", "2" and "0:0" |
| HitObjects.DecodeEdgeSounds | src/parseparts.rs:483-507 | the push loop computes the sequence of the pieces' hit sounds, a failing piece panics |
| HitObjects.DecodeEdgeSets | src/parseparts.rs:508-532 | the push loop computes the sequence of the pieces' half samples, a failing piece panics |
| HitObjects.DecodeSlider | src/parseparts.rs:412-557 | the slider decoder as written computes `SliderOf` |
| HitObjects.DecodeTrailing | src/parseparts.rs:444-556 | the trailing-field decoding as written computes `SliderTrailing` |
| HitObjects.HeadOf | src/parseparts.rs:567-591 | the five shared fields never give an error, and fewer than five fields panic; `HeadRoundTrip` and `HeadOfPrefix` state what it reads |
| HitObjects.CircleOf | src/parseparts.rs:559-601 | `Circle::from_str` never returns an error; `CircleShape` and `CircleRoundTrip` state its fields |
| HitObjects.SpinnerOf | src/parseparts.rs:363-410 | `Spinner::from_str` never returns an error; `SpinnerShape` and `SpinnerRoundTrip` state its fields |
| HitObjects.SliderOf | src/parseparts.rs:412-557 | `Slider::from_str`: its only error is `WrongArity(s, n)`, with `n` the count of fields after the fifth; `SliderOk` states when it decodes, `SliderArity` when it errs, `SliderFields` what it holds, and otherwise it panics |
| HitObjects.SliderTrailing | src/parseparts.rs:441-556 | the trailing fields for 3, 4 or 6 of them never give an error; the length is the third token and the curve is the decoding of the first |
| HitObjects.CircleShape | src/parseparts.rs:559-601 | a circle decodes iff its five leading fields do, never returns an error, and always has the default hit sample |
| HitObjects.HeadRoundTrip | src/parseparts.rs:559-601 | the five leading fields read back from their text |
| HitObjects.CircleRoundTrip | src/parseparts.rs:559-601 | every circle head reads back as a circle with the default hit sample |
| HitObjects.HeadOfPrefix | src/parseparts.rs:563-597 | fields after the fifth do not change the head |
| HitObjects.CircleIgnoresRest | src/parseparts.rs:559-601 | text after the fifth field of a circle is ignored |
| HitObjects.SpinnerShape | src/parseparts.rs:363-410 | a spinner decodes iff its head and sixth field do, never returns an error, and has the default hit sample |
| HitObjects.SpinnerRoundTrip | src/parseparts.rs:363-410 | every spinner head and end time read back |
| HitObjects.SpinnerIgnoresRest | src/parseparts.rs:363-410 | text after the sixth field of a spinner is ignored |
| HitObjects.SliderArity | src/parseparts.rs:444-456 | the only slider error is a trailing field count other than 3, 4 or 6, reported with that count |
| HitObjects.SliderFields | src/parseparts.rs:444-556 | a decoded slider's curve, slides and length are its fields 5-7; 8 fields give the default edge sounds; fewer than 11 give the default edge sets and hit sample |
| HitObjects.TrailingFields | src/parseparts.rs:444-556 | the trailing fields of a decoded slider: the curve, slides and length from the first three, the edge sounds and edge sets piece by piece when present and the defaults otherwise, and the hit sample from the sixth |
| HitObjects.SliderTrailingOk | src/parseparts.rs:441-556 | the trailing fields decode iff the curve, the slide count and, for 4 or 6 fields, every edge sound and, for 6, every edge set and the hit sample decode |
| HitObjects.SliderOk | src/parseparts.rs:412-557 | a slider decodes iff its five shared fields do, 3, 4 or 6 fields follow them, and every trailing field its branch reads decodes |
| HitObjects.EdgesOk | src/parseparts.rs:485-496 | an edge list decodes iff each of its pipe-separated pieces does |
| HitObjects.SliderThreeFields | src/parseparts.rs:441-542 | a slider at (256, 192), time 1000, type byte 64, hit sound 0, with the three trailing fields curve `L` to 300:192, 1 slide and length `100.0`, decodes to that linear one-point curve with the default edge sounds, edge sets and hit sample |
| HitObjects.SliderTypeTwo | src/parts/_type.rs:18-41 | the same line with type byte 2 panics, because the MSB-first reading finds no object type in 2 |
| TimingPoints.DefaultTimingPointFields | src/collections/timing_point.rs:15-31 | the default record: time 0, meter 4, sample set Default, index 0, volume 100, uninherited, no effects |
| TimingPoints.TimingPointOf | src/parseparts.rs:603-776 | `TimingPoint::from_str`: its only error is `WrongArity(s, n)` with `n` the comma count; `TimingPointOk` states when it decodes, `TimingPointArity` when it errs, `TimingPointFields` what it holds, and otherwise it panics |
| TimingPoints.TimingPointFrom | src/parseparts.rs:606-773 | the field reading for 2, 6, 7 or 8 fields never gives an error; `TimingPointFields` states the fields and defaults |
| TimingPoints.TimingPointArity | src/parseparts.rs:603-776 | the only error is a comma count other than 1, 5, 6 or 7, reported with that count |
| TimingPoints.TimingPointFields | src/parseparts.rs:606-773 | fields decode in order, defaults fill the rest, and uninherited is whether the 7th token is the integer 1 |
| TimingPoints.TimingPointFromOk | src/parseparts.rs:606-773 | a branch decodes iff every field it reads does; the beat length is any text |
| TimingPoints.TimingPointOk | src/parseparts.rs:603-776 | a timing point decodes iff the comma count is 1, 5, 6 or 7 and every field its branch reads decodes: the time, then meter, sample set, index and volume (5 or more commas), uninherited (6 or more) and effects (7) |
| TimingPoints.TimingPointTwoFields | src/parseparts.rs:606-624 | `5000,500.0` is the default timing point with time 5000 and beat length `500.0` |
| TimingPoints.TimingPointEightFields | src/parseparts.rs:718-771 | `5000,500.0,3,2,1,80,0,5` takes every field literally: Soft, inherited, kiai and omitted bar line |
| TimingPoints.FieldsTextFree | src/parseparts.rs:603-776 | the text of a timing point's fields holds no comma |
| TimingPoints.FieldsTextRead | src/parseparts.rs:718-771 | the eight fields of a timing point decode back to it |
| TimingPoints.FieldsTextNumbers | src/parseparts.rs:719-750 | the integer fields read back from their text |
| TimingPoints.FieldsTextTokens | src/parseparts.rs:735-761 | the sample set, uninherited flag and effects read back from their text |
| TimingPoints.TimingPointRoundTrip | src/parseparts.rs:603-776 | every timing point reads back from its comma-joined text |
| Backgrounds.CountReverse | src/parts/background.rs:17-18 | reversing keeps the comma count |
| Backgrounds.BackgroundOf | src/parts/background.rs:15-49 | `Background::from_str` never panics, and its errors are only the missing comma and the two offset failures; `BackgroundFields` and `BackgroundRoundTrip` state its fields |
| Backgrounds.BackgroundFields | src/parts/background.rs:15-49 | the y offset is the text after the last comma, the x offset the text between the last two, the file name the rest; a bad y offset is reported before a bad x offset |
| Backgrounds.BackgroundNeedsTwoCommas | src/parts/background.rs:19-33 | fewer than two commas is an error |
| Backgrounds.BackgroundRoundTrip | src/parts/background.rs:15-49 | every background reads back from `file,x,y`, whatever commas the file name holds |
| Breaks.BreakNeedsComma | src/parts/_break.rs:16-17 | no comma is a `SplitError(s, ',')` |
| Breaks.BreakOf | src/parts/_break.rs:14-28 | `Break::from_str` never panics, and its errors are only the missing comma and the two time failures; `BreakFields` and `BreakRoundTrip` state its fields |
| Breaks.BreakFields | src/parts/_break.rs:14-28 | the text before the first comma is the start, the rest the end |
| Breaks.BreakSecondComma | src/parts/_break.rs:21-23 | a second comma makes the end time invalid |
| Breaks.BreakRoundTrip | src/parts/_break.rs:14-28 | every break reads back from `start,end` |
| Colors.TokenErrors | src/customization/color.rs:24-31 | at most one error per token; `TokenErrorsNone`, `TokenErrorsAppend` and `TokenErrorsName` state when it is empty, its order and what each error names |
| Colors.TokenErrorsNone | src/customization/color.rs:24 | no errors exactly when every token is a u8 |
| Colors.TokenErrorsAppend | src/customization/color.rs:26-30 | the errors of the tokens, in token order |
| Colors.TokenErrorsName | src/customization/color.rs:18-21 | each error names a failing token as a `u8` |
| Colors.ColorOf | src/customization/color.rs:12-42 | `Color::from_str` never panics; `ColorFields`, `ColorErrorsFirst` and `ColorRoundTrip` state its outcomes |
| Colors.DecodeColor | src/customization/color.rs:14-41 | the three `remove(0)` calls compute `ColorOf` |
| Colors.ColorFields | src/customization/color.rs:33-41 | a decoded colour is exactly three u8 tokens, red, green, blue in order |
| Colors.ColorErrorsFirst | src/customization/color.rs:24-39 | bad tokens are reported before a wrong token count, which is a `WrongArity(s, n)` |
| Colors.ColorRoundTrip | src/customization/color.rs:45-48 | every colour reads back from `r,g,b`, and `tuple` gives its channels |
| Colors.Tuple | src/customization/color.rs:45-48 | `tuple` returns the three channels unchanged, in order |
| Colours.LineOf | src/parse/colours.rs:10-18 | a line never panics |
| Colours.ParseColours | src/parse/colours.rs:8-34 | `parse` never panics, and on success gives one colour per line, each the decoding of that line, in line order; `ParseColoursShape` and `LineFailures` state the error case |
| Colours.ParseColoursShape | src/parse/colours.rs:8-34 | the section decodes iff every line's colour text does, to their colours in line order; otherwise the joined errors of the failing lines |
| Colours.LineFailures | src/parse/colours.rs:21-27 | the errors follow line order |
| Colours.LineFailure | src/parse/colours.rs:14 | a failing line names its untrimmed piece in `[Colours]` |
| Colours.ColourPieceSuffix | src/parse/colours.rs:10 | the piece is the text after the last colon, or the whole line |
| Colours.ColourAfterPrefix | src/parse/colours.rs:10-12 | a `ComboN : r,g,b` entry decodes from its `r,g,b` whatever its name |
| Text.Lines | src/parse.rs:96 | each line is trimmed and non-empty; `LinesOf` states which lines are kept |
| Text.LinesOf | src/parse.rs:96 | the lines of a document are its newline-separated pieces, trimmed, with the blank ones dropped, in order |
| Text.NonBlankOne | src/parse.rs:96 | one line is kept, trimmed, exactly when it is not blank |
| Text.NonBlankAppend | src/parse.rs:96 | the filter keeps the lines of each part of the document in order |
| Text.AsciiOnly | src/parse.rs:101 | the filtered line holds only ASCII characters, and an ASCII line is its own filtering; `AsciiOnlyOne` and `AsciiOnlyAppend` state that the ASCII characters are kept in order |
| Text.AsciiOnlyOne | src/parse.rs:101 | one character is kept exactly when it is ASCII |
| Text.AsciiOnlyAppend | src/parse.rs:101 | the filter keeps the ASCII characters of each part in order |
| Text.SplitOnce | src/parse.rs:111 | no result exactly when the delimiter is absent; otherwise the text around its first occurrence |
| Text.SplitOnceAt | src/parse.rs:111 | the split is at the first delimiter |
| Text.Trim | src/parse.rs:96 | the trimmed text neither starts nor ends with whitespace; `TrimEnds` states that only leading and trailing whitespace is removed |
| Text.TrimEnds | src/parse.rs:96 | the trim is a contiguous stretch of the text, and everything before and after it is whitespace |
| Text.TrimIdempotent | src/parse.rs:96 | trimming twice is trimming once |
| Text.LastPiece | src/parse/colours.rs:10 | the last piece holds no delimiter |
| Parse.Position | src/parse.rs:98-101 | the first index holding the key, or none exactly when the key is absent |
| Parse.Scan | src/parse.rs:96-167 | the pass never panics |
| Parse.AssembleChart | src/parse.rs:170-213 | the chart is built iff its four fields are set; otherwise the first unset one of mode, stack leniency, slider multiplier, slider tick rate is missing from "chart" |
| Parse.AssembleDifficulty | src/parse.rs:237-278 | the first unset field of circle size, HP drain, overall difficulty, approach rate is missing from "difficulty" |
| Parse.AssembleFiledata | src/parse.rs:292-319 | file format, then audio file name, is reported missing; lead-in 0, preview time -1 and countdown offset 0 by default |
| Parse.Assemble | src/parse.rs:169-337 | succeeds iff every requested group can be built; the groups present are exactly those requested, each built from its accumulators with its defaults (`AssembleChart`, `AssembleCustomization`, `AssembleDifficulty`, `AssembleFiledata`, the editor and metadata as collected); a missing field of the chart is reported before one of the difficulty, and one of the difficulty before one of the file data |
| Parse.Decode | src/parse.rs:11-338 | `parse_str` never panics |
| Parse.DecodeLine | src/parse.rs:97-166 | one iteration of the line loop computes `Step` |
| Parse.Step | src/parse.rs:97-166 | one line never grows the header list; a stop happens only in the preamble; a failure is an invalid `[Preamble]` or `[General]` line or the invalid `Mode` token; `HeaderMatch`, `OtherLine`, `OtherSection`, `PreambleLine`, `PreambleVersion`, `GeneralLine` and `GeneralEntry` state each case |
| Parse.ParseStr | src/parse.rs:11-338 | the loop over section, headers and accumulators, with its `break` and early returns, computes `Decode` |
| Parse.HeaderMatch | src/parse.rs:98-104 | a header match at p switches to that header and leaves exactly the first p headers, a shorter list without the matched header |
| Parse.OtherLine | src/parse.rs:105-165 | any other line leaves the section and the headers alone |
| Parse.OtherSection | src/parse.rs:105-165 | a non-header line in a section other than `[Preamble]` and `[General]` is passed over: no failure and no change, whatever is requested |
| Parse.StepHeaders | src/parse.rs:98-104 | one line keeps the header list a canonical prefix, with the section right after it |
| Parse.ScanHeaders | src/parse.rs:85-104 | over any run of lines the header list stays a canonical prefix and only shrinks by prefixes |
| Parse.GeneralIsLast | src/parse.rs:103-104 | once in `[General]` the list is empty and the pass stays in `[General]` |
| Parse.ByteOrderMarkHeader | src/parse.rs:100-101 | a header behind a byte-order mark is recognised |
| Parse.PreambleLine | src/parse.rs:108-122 | a preamble line is ignored unless file data is requested; then a line without `v` is an `InvalidLine` of `[Preamble]` |
| Parse.PreambleVersion | src/parse.rs:111-115 | a u8 after the first `v` sets the file format and ends the pass; any other text there is ignored |
| Parse.GeneralLine | src/parse.rs:124-163 | a `[General]` line is ignored unless the chart, customization or file data is requested; then a line without `:` is an `InvalidLine` of `[General]` |
| Parse.GeneralEntry | src/parse.rs:126-146 | with the chart requested, a `Mode` key fails as an invalid `Mode` token; every other entry is ignored |
| Parse.ScanFields | src/parse.rs:96-167 | only the file format is ever set, and nothing at all without file data requested |
| Parse.ScanQuiet | src/parse.rs:105-163 | without the chart, customization or file data requested the pass cannot fail |
| Parse.RequiredGroupsFail | src/parse.rs:170-319 | a request for the chart, the difficulty or the file data always fails; with no failing line it is the first missing field of the first such group, for the file data `audio_filename` exactly when the preamble yielded a version and `file_format` otherwise |
| Parse.QuietGroups | src/parse.rs:280-337 | a request for the editor and metadata alone succeeds, with empty groups |
| Parse.CustomizationDefaults | src/parse.rs:215-235 | the customization, alone or with the editor and metadata, gives its defaults (Normal sample set, story fire in front, no overlay change, normal countdown, other flags off) and empty editor and metadata groups, or fails on a `[General]` line without a colon |
| Parse.AssembleCustomization | src/parse.rs:215-235 | the customization group never fails: each set field is kept and each unset one takes its default, field by field (sample set Normal, overlay NoChange, countdown Normal, story fire on, every other flag off) |
| Parse.ScanCustomization | src/parse.rs:124-163 | without the chart or file data requested, the only failing line is a `[General]` line without a colon |

## Left out

- Floating point: `beat_length` of a timing point and `length` of a slider are `f64` in the source. They are kept as the text of their tokens. `TimingPoints.TimingPointOf` and `HitObjects.SliderTrailing` accept any such token, where the source panics on one that is not a float.
- Parallelism: the `rayon` iterators of the colour decoders preserve order and are modelled as sequential maps.
- Message text: errors keep their kind and the fields a caller can inspect, not the wording of the `anyhow` and `format!` messages. The string errors of `Color::from_str` become `InvalidToken` and `WrongArity` errors. The colour driver drops them: its per-line message "invalid line \"{}\" in [Colours] parsing" (src/parse/colours.rs:14,17) becomes `InvalidLine(piece, "[Colours]")` with the untrimmed piece, and the driver's only error is `Joined` of those `InvalidLine` errors. The `anyhow` errors of `Background::from_str` become `SplitError(s, ',')`, `Unknown("yoffset", s)` and `Unknown("xoffset", s)`, and those of `Break::from_str` become `SplitError(s, ',')`, `Unknown("start_time", s)` and `Unknown("end_time", s)`. The string errors of `Curve::from_str` become `InvalidToken(s, "i64")` for a bad coordinate and `WrongArity(s, n)` for a Perfect curve with a third point; the count `n` of `|`-pieces after the type letter is the model's addition, since the source's message carries only `s`. The message "Invalid timing point: {}" of `TimingPoint::from_str` (src/parseparts.rs:773) becomes `WrongArity(s, n)`, with `n` the comma count; that count is also the model's addition. The messages "Invalid HitSound: {}" (src/parseparts.rs:268) and "Invalid HalfHitSample: {}" (src/parseparts.rs:154) become `InvalidToken(s, "HitSound")` and `InvalidToken(s, "HalfHitSample")`.
- The two other `Color::from_str` at src/parts/color.rs:16-21 and src/parseparts.rs:44-56 are not modelled. They use undefined names and are incomplete.
- The second `SampleSet::from_str` (src/parseparts.rs:310-321) is the same as the first and is modelled once.
- The second `Type::from_str` (src/parseparts.rs:323-361) is the same as src/parts/_type.rs:12-50 and is modelled once, in `TypeField`.
- `Type::from_str` (src/parts/_type.rs:37-40, and its copy at src/parseparts.rs:348) does not compile as written: it uses `anyhow`'s `bail!` in a function whose error type is `ParseError`. The model reads that arm as the error `Unknown("Type", s)`.
- The colour driver does not compile as written. At src/parse/colours.rs:25 and :32 it calls `unwrap_err()` and `unwrap()` on the `&Result<Color, String>` items of `par_iter()`, which moves out of a shared reference. The model reads these steps as intended: the errors of the failing lines are joined with ", ", and otherwise the colours are unwrapped in line order.
- `parse_str` does not compile as written. The `match section` (src/parse.rs:107-164) has only two arms on a `&str`, the `match key` blocks are not exhaustive, `sections` is not `mut`, and `bookmarks` is an `Option` where `Editor` expects a list. The model gives a section or a key that matches no arm no effect, lets `sections` be reassigned, and starts the bookmarks as the empty list.
- src/metadata.rs is not part of this model. Its fields are taken to be optional text, which is all `parse_str` needs, since it never sets them.
- Sections with no dispatch arm in `parse_str` are passed over unexamined. That is the model's reading of the missing arms, since the source does not compile there: `[Editor]`, `[Metadata]`, `[Difficulty]`, `[Events]`, `[TimingPoints]`, `[Colours]` and `[HitObjects]`. So no timing point, hit object, background, break or colour is ever collected into a group. Those decoders are modelled on their own.
- A `ManiaHold` hit object has no decoder in the source. The model declares its shape only.
- `Ratio<i64>` is a numerator and a denominator. No ratio is ever decoded.
- Difficulty values are `u8` fields that are never set. The one-decimal fixed-point encoding is not part of the source shown.
- `Text.Lines` models `str::lines` as a split on newlines. The carriage return before a newline, and a final empty line, both disappear in the trim and the blank filter.
