/** `HitSound::from_str` of src/parseparts.rs: an integer token taken apart
    into the normal, whistle, finish and clap flags by subtracting powers of
    two from the top down. */
module HitSounds {
  import opened Results
  import opened Numbers
  import opened Parts

  /** What the decoder computes, stated by bits: a token that is not an
      i64 panics, a value above 15 is an error, a negative value gives no
      flag at all, and otherwise the flags are bits 0 to 3 of the value. */
  function HitSoundOf(s: string): (r: Outcome<HitSound>)
    ensures r.Panic? <==> ParseI64(s).None?
    ensures r.Err? <==> ParseI64(s).Some? && ParseI64(s).value > 15
    ensures r.Err? ==> r.error == InvalidToken(s, "HitSound")
    ensures r.Ok? && ParseI64(s).value >= 0 ==> HitSoundValue(r.value) == ParseI64(s).value
    ensures r.Ok? && ParseI64(s).value < 0 ==> r.value == HitSound(false, false, false, false)
  {
    match ParseI64(s)
    case None => Panic
    case Some(n) =>
      if n > 15 then Err(InvalidToken(s, "HitSound"))
      else if n < 0 then Ok(HitSound(false, false, false, false))
      else
        NibbleValue(n);
        Ok(HitSound(Bit(n, 0), Bit(n, 1), Bit(n, 2), Bit(n, 3)))
  }

  /** The flags the top-down subtraction finds in a value below 16 are its
      four low bits. */
  lemma SubtractiveBits(n: nat)
    requires n < 16
    ensures var n3 := if n > 7 then n - 8 else n;
            var n2 := if n3 > 3 then n3 - 4 else n3;
            var n1 := if n2 > 1 then n2 - 2 else n2;
            && Bit(n, 3) == (n > 7) && Bit(n, 2) == (n3 > 3)
            && Bit(n, 1) == (n2 > 1) && Bit(n, 0) == (n1 > 0)
  {
    match n
    case 0 => case 1 => case 2 => case 3 => case 4 => case 5 => case 6 => case 7 =>
    case 8 => case 9 => case 10 => case 11 => case 12 => case 13 => case 14 => case 15 =>
  }

  /** A value below 16 is the sum of its four low bits. */
  lemma NibbleValue(n: nat)
    requires n < 16
    ensures HitSoundValue(HitSound(Bit(n, 0), Bit(n, 1), Bit(n, 2), Bit(n, 3))) == n
  {
    SubtractiveBits(n);
  }

  /** `HitSound::from_str` as written: a `[false; 8]` array of bits, set
      from bit 3 down by comparing the remaining value with `2^k - 1`. */
  method DecodeHitSound(s: string) returns (r: Outcome<HitSound>)
    ensures r == HitSoundOf(s)
  {
    var parsed := ParseI64(s);
    if parsed.None? {
      return Panic;
    }
    var num := parsed.value;
    var bits := new bool[8](_ => false);
    if num > 15 {
      return Err(InvalidToken(s, "HitSound"));
    }
    ghost var n := num;
    if num > 7 {
      bits[3] := true;
      num := num - 8;
    }
    if num > 3 {
      bits[2] := true;
      num := num - 4;
    }
    if num > 1 {
      bits[1] := true;
      num := num - 2;
    }
    if num > 0 {
      bits[0] := true;
      num := num - 1;
    }
    if num > 0 {
      // the "Logic error" branch: after the four steps `num` is at most 0
      r := Err(Unknown("HitSound", s));
    } else {
      r := Ok(HitSound(bits[0], bits[1], bits[2], bits[3]));
    }
    if n >= 0 {
      SubtractiveBits(n);
    }
  }

  /** Every combination of flags decodes from the number it spells. */
  lemma HitSoundFromValue(h: HitSound)
    ensures HitSoundOf(ShowNat(HitSoundValue(h))) == Ok(h)
  {
    var n := HitSoundValue(h);
    ParseShowI64(n);
    NibbleValue(n);
  }

  /** The two default edge sounds of a slider: "0" gives no flag and "2"
      gives the whistle alone. */
  lemma HitSoundDefaults()
    ensures HitSoundOf("0") == Ok(HitSound(false, false, false, false))
    ensures HitSoundOf("2") == Ok(HitSound(false, true, false, false))
  {
    assert ParseI64("0") == Some(0);
    assert ParseI64("2") == Some(2);
  }
}
