/** `Color::from_str` and `Color::tuple` of src/customization/color.rs: a
    comma-separated triple of `u8` values.  Every token is decoded first and
    every failure reported, in token order; only then is the count checked.
    The parallel map of the source keeps token order and is modelled as a
    sequential one. */
module Colors {
  import opened Results
  import opened Text
  import opened Numbers
  import opened Parts

  /** The error of each token that is not a u8, in token order. */
  function TokenErrors(tokens: seq<string>): (r: seq<Error>)
    ensures |r| <= |tokens|
  {
    if tokens == [] then []
    else (if ParseU8(tokens[0]).None? then [InvalidToken(tokens[0], "u8")] else []) + TokenErrors(tokens[1..])
  }

  /** What the decoder computes: the joined errors of the tokens that are
      not u8 values, else an error if there are not exactly three tokens,
      else the three values in order. */
  function ColorOf(s: string): (r: Outcome<Color>)
    ensures !r.Panic?
  {
    var tokens := Split(s, ',');
    var errors := TokenErrors(tokens);
    if errors != [] then Err(Joined(errors))
    else if |tokens| != 3 then Err(WrongArity(s, |tokens|))
    else
      TokenErrorsNone(tokens);
      Ok(Color(ParseU8(tokens[0]).value, ParseU8(tokens[1]).value, ParseU8(tokens[2]).value))
  }

  /** There are no errors exactly when every token is a u8. */
  lemma {:induction false} TokenErrorsNone(tokens: seq<string>)
    ensures TokenErrors(tokens) == [] <==> forall i :: 0 <= i < |tokens| ==> ParseU8(tokens[i]).Some?
  {
    if tokens != [] {
      TokenErrorsNone(tokens[1..]);
      assert forall i :: 1 <= i < |tokens| ==> tokens[i] == tokens[1..][i - 1];
    }
  }

  /** The errors of a list are those of its parts, in order. */
  lemma {:induction false} TokenErrorsAppend(a: seq<string>, b: seq<string>)
    ensures TokenErrors(a + b) == TokenErrors(a) + TokenErrors(b)
  {
    if a != [] {
      assert (a + b)[1..] == a[1..] + b;
      assert (a + b)[0] == a[0];
      TokenErrorsAppend(a[1..], b);
      var head := if ParseU8(a[0]).None? then [InvalidToken(a[0], "u8")] else [];
      assert head + (TokenErrors(a[1..]) + TokenErrors(b)) == head + TokenErrors(a[1..]) + TokenErrors(b);
    } else {
      assert a + b == b;
    }
  }

  /** Each error names a token that is not a u8. */
  lemma {:induction false} TokenErrorsName(tokens: seq<string>)
    ensures forall e :: e in TokenErrors(tokens) ==>
      exists i :: 0 <= i < |tokens| && ParseU8(tokens[i]).None? && e == InvalidToken(tokens[i], "u8")
  {
    if tokens != [] {
      TokenErrorsName(tokens[1..]);
      assert forall i :: 1 <= i < |tokens| ==> tokens[i] == tokens[1..][i - 1];
    }
  }

  /** `Color::from_str` as written: the decoded tokens, the error check,
      then three `remove(0)` calls on the list of values. */
  method DecodeColor(s: string) returns (r: Outcome<Color>)
    ensures r == ColorOf(s)
  {
    var tokens := Split(s, ',');
    var colors := seq(|tokens|, i requires 0 <= i < |tokens| => ParseU8(tokens[i]));
    var errors := TokenErrors(tokens);
    if errors != [] {
      return Err(Joined(errors));
    }
    if |colors| != 3 {
      return Err(WrongArity(s, |colors|));
    }
    TokenErrorsNone(tokens);
    var red := colors[0];
    colors := colors[1..];
    var green := colors[0];
    colors := colors[1..];
    var blue := colors[0];
    colors := colors[1..];
    r := Ok(Color(red.value, green.value, blue.value));
  }

  /** `Color::tuple`. */
  function Tuple(c: Color): (r: (Byte, Byte, Byte))
    ensures Color(r.0, r.1, r.2) == c
  {
    (c.red, c.green, c.blue)
  }

  /** A decoded colour has exactly three tokens, each a u8, and `tuple`
      gives back their values in order. */
  lemma ColorFields(s: string)
    requires ColorOf(s).Ok?
    ensures var tokens := Split(s, ',');
      |tokens| == 3 && ParseU8(tokens[0]).Some? && ParseU8(tokens[1]).Some? && ParseU8(tokens[2]).Some? &&
      Tuple(ColorOf(s).value) == (ParseU8(tokens[0]).value, ParseU8(tokens[1]).value, ParseU8(tokens[2]).value)
  {
    TokenErrorsNone(Split(s, ','));
  }

  /** The token errors come before the count: a wrong count is reported only
      when every token is a u8. */
  lemma ColorErrorsFirst(s: string)
    ensures var tokens := Split(s, ',');
      (exists i :: 0 <= i < |tokens| && ParseU8(tokens[i]).None?) ==> ColorOf(s) == Err(Joined(TokenErrors(tokens)))
    ensures var tokens := Split(s, ',');
      (forall i :: 0 <= i < |tokens| ==> ParseU8(tokens[i]).Some?) && |tokens| != 3 ==>
        ColorOf(s) == Err(WrongArity(s, |tokens|))
  {
    TokenErrorsNone(Split(s, ','));
  }

  lemma ColorRoundTrip(red: Byte, green: Byte, blue: Byte)
    ensures ColorOf(ShowNat(red) + "," + ShowNat(green) + "," + ShowNat(blue)) == Ok(Color(red, green, blue))
    ensures Tuple(ColorOf(ShowNat(red) + "," + ShowNat(green) + "," + ShowNat(blue)).value) == (red, green, blue)
  {
    var s := ShowNat(red) + "," + ShowNat(green) + "," + ShowNat(blue);
    ShowIntAvoids(red, ',');
    ShowIntAvoids(green, ',');
    ShowIntAvoids(blue, ',');
    SplitThree(ShowNat(red), ShowNat(green), ShowNat(blue), ',');
    var tokens := [ShowNat(red), ShowNat(green), ShowNat(blue)];
    ParseShowU8(red);
    ParseShowU8(green);
    ParseShowU8(blue);
    TokenErrorsNone(tokens);
  }
}
