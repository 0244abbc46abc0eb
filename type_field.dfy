/** `Type::from_str` of src/parts/_type.rs: the type field of a hit object
    read as a `u8`, formatted as eight binary digits with `{:08b}` (most
    significant bit first) and decoded by looking at string positions. */
module TypeField {
  import opened Results
  import opened Numbers
  import opened Parts

  /** `format!("{:0w$b}", n)` for `n < 2^w`: `w` binary digits, most
      significant first. */
  function Binary(n: nat, w: nat): (b: string)
    ensures |b| == w
    ensures forall i :: 0 <= i < w ==> b[i] in "01"
  {
    if w == 0 then [] else Binary(n / 2, w - 1) + [if n % 2 == 1 then '1' else '0']
  }

  /** `.chars().map(|c| c == '1')`. */
  function Flags(b: string): (f: seq<bool>)
    ensures |f| == |b| && forall i :: 0 <= i < |b| ==> (f[i] <==> b[i] == '1')
  {
    seq(|b|, i requires 0 <= i < |b| => b[i] == '1')
  }

  function BitValue(b: bool): bv8
  {
    if b then 1 else 0
  }

  /** `(b4 as u8) << 2 | (b5 as u8) << 1 | (b6 as u8) << 0`. */
  function ColorSkipOf(b4: bool, b5: bool, b6: bool): (c: ColorSkip)
    ensures c == (if b4 then 4 else 0) + (if b5 then 2 else 0) + (if b6 then 1 else 0)
  {
    ((BitValue(b4) << 2) | (BitValue(b5) << 1) | (BitValue(b6) << 0)) as int
  }

  /** The object type chosen by positions 0, 1, 3 and 7, when exactly one
      of them is set. */
  function ObjectTypeOf(b0: bool, b1: bool, b3: bool, b7: bool): Option<ObjectType>
  {
    match (b0, b1, b3, b7)
    case (true, false, false, false) => Some(ObjectType.Circle)
    case (false, true, false, false) => Some(ObjectType.Slider)
    case (false, false, true, false) => Some(ObjectType.Spinner)
    case (false, false, false, true) => Some(ObjectType.ManiaHold)
    case _ => None
  }

  /** The decoding of the eight flags of the binary form of `s`'s value. */
  function TypeOfFlags(bits: seq<bool>, s: string): (r: Outcome<Type>)
    requires |bits| == 8
    ensures !r.Panic? && (r.Err? ==> r.error == Unknown("Type", s))
  {
    match ObjectTypeOf(bits[0], bits[1], bits[3], bits[7])
    case None => Err(Unknown("Type", s))
    case Some(objectType) => Ok(Type(objectType, bits[2], ColorSkipOf(bits[4], bits[5], bits[6])))
  }

  /** `Type::from_str`. */
  function ParseType(s: string): (r: Outcome<Type>)
    ensures !r.Panic?
    ensures r == Err(InvalidToken(s, "u8")) <==> ParseU8(s).None?
    ensures r.Err? && ParseU8(s).Some? ==> r.error == Unknown("Type", s)
  {
    match ParseU8(s)
    case None => Err(InvalidToken(s, "u8"))
    case Some(n) => TypeOfFlags(Flags(Binary(n, 8)), s)
  }

  /** Position `i` of the binary form is bit `w - 1 - i` of the value. */
  lemma {:induction false} BinaryBit(n: nat, w: nat, i: nat)
    requires i < w
    ensures Binary(n, w)[i] == '1' <==> Bit(n, w - 1 - i)
  {
    if i < w - 1 {
      BinaryBit(n / 2, w - 1, i);
    }
  }

  predicate ExactlyOne(a: bool, b: bool, c: bool, d: bool)
  {
    (if a then 1 else 0) + (if b then 1 else 0) + (if c then 1 else 0) + (if d then 1 else 0) == 1
  }

  /** The eight flags of the binary form of `n`, position by position. */
  lemma BinaryFlags(n: nat)
    ensures Flags(Binary(n, 8)) == [Bit(n, 7), Bit(n, 6), Bit(n, 5), Bit(n, 4), Bit(n, 3), Bit(n, 2), Bit(n, 1), Bit(n, 0)]
  {
    forall i | 0 <= i < 8
      ensures Binary(n, 8)[i] == '1' <==> Bit(n, 7 - i)
    {
      BinaryBit(n, 8, i);
    }
  }

  /** How a `u8` value decodes: exactly one of bits 7, 6, 4 and 0 must be
      set (Circle, Slider, Spinner, ManiaHold in that order), the new-combo
      flag is bit 5 and the colour skip is bits 3, 2, 1 read big-endian. */
  lemma ParseTypeBits(s: string, n: nat)
    requires ParseU8(s) == Some(n)
    ensures ParseType(s).Ok? <==> ExactlyOne(Bit(n, 7), Bit(n, 6), Bit(n, 4), Bit(n, 0))
    ensures ParseType(s).Ok? ==>
      var t := ParseType(s).value;
      && (t.objectType == ObjectType.Circle <==> Bit(n, 7))
      && (t.objectType == ObjectType.Slider <==> Bit(n, 6))
      && (t.objectType == ObjectType.Spinner <==> Bit(n, 4))
      && (t.objectType == ObjectType.ManiaHold <==> Bit(n, 0))
      && (t.newCombo <==> Bit(n, 5))
      && t.colorSkip == (if Bit(n, 3) then 4 else 0) + (if Bit(n, 2) then 2 else 0) + (if Bit(n, 1) then 1 else 0)
  {
    BinaryFlags(n);
  }

  /** The lowest bit, value 1, selects a mania hold note (the comment
      beside the field assigns bit 0 to circles). */
  lemma ParseTypeOne()
    ensures ParseType("1") == Ok(Type(ObjectType.ManiaHold, false, 0))
  {
    assert ParseU8("1") == Some(1);
    BinaryFlags(1);
  }

  /** Value 2 sets no position that selects an object type. */
  lemma ParseTypeTwo()
    ensures ParseType("2") == Err(Unknown("Type", "2"))
  {
    assert ParseU8("2") == Some(2);
    BinaryFlags(2);
  }

  /** The highest bit, value 128, selects a circle. */
  lemma ParseType128()
    ensures ParseType("128") == Ok(Type(ObjectType.Circle, false, 0))
  {
    assert "128"[..2] == "12" && "12"[..1] == "1";
    assert DigitsValue("12") == 12;
    assert DigitsValue("128") == 128;
    assert ParseU8("128") == Some(128);
    BinaryFlags(128);
  }

  /** A value above 255 is not a `u8`. */
  lemma ParseType256()
    ensures ParseType("256") == Err(InvalidToken("256", "u8"))
  {
    assert "256"[..2] == "25" && "25"[..1] == "2";
    assert ParseU8("256") == None;
  }

  /** The value, most significant first, of a sequence of binary flags. */
  function Value(bits: seq<bool>): nat
  {
    if bits == [] then 0 else 2 * Value(bits[..|bits| - 1]) + (if bits[|bits| - 1] then 1 else 0)
  }

  lemma {:induction false} ValueBinary(bits: seq<bool>)
    ensures Flags(Binary(Value(bits), |bits|)) == bits
  {
    if bits != [] {
      var init := bits[..|bits| - 1];
      ValueBinary(init);
      assert Value(bits) / 2 == Value(init);
    }
  }

  lemma {:induction false} ValueBound(bits: seq<bool>, bound: nat)
    requires bound == Pow2(|bits|)
    ensures Value(bits) < bound
  {
    if bits != [] {
      ValueBound(bits[..|bits| - 1], Pow2(|bits| - 1));
    }
  }

  function Pow2(k: nat): nat
  {
    if k == 0 then 1 else 2 * Pow2(k - 1)
  }

  /** The eight flags, most significant first, that encode `t`. */
  function TypeFlags(t: Type): (b: seq<bool>)
    ensures |b| == 8
  {
    [ t.objectType == ObjectType.Circle, t.objectType == ObjectType.Slider, t.newCombo,
      t.objectType == ObjectType.Spinner, t.colorSkip >= 4, t.colorSkip % 4 >= 2,
      t.colorSkip % 2 == 1, t.objectType == ObjectType.ManiaHold ]
  }

  /** The type-field value that encodes `t`. */
  function TypeByte(t: Type): (n: Byte)
  {
    ValueBound(TypeFlags(t), 256);
    Value(TypeFlags(t))
  }

  /** Every type decodes from its own value. */
  lemma ParseTypeByte(t: Type)
    ensures ParseType(ShowNat(TypeByte(t))) == Ok(t)
  {
    var bits := TypeFlags(t);
    var n := TypeByte(t);
    assert n == Value(bits);
    var s := ShowNat(n);
    ParseShowU8(n);
    assert ParseType(s) == TypeOfFlags(Flags(Binary(n, 8)), s);
    ValueBinary(bits);
    TypeOfOwnFlags(t, s);
  }

  lemma TypeOfOwnFlags(t: Type, s: string)
    ensures TypeOfFlags(TypeFlags(t), s) == Ok(t)
  {
    var bits := TypeFlags(t);
    assert ObjectTypeOf(bits[0], bits[1], bits[3], bits[7]) == Some(t.objectType) by {
      match t.objectType
      case Circle =>
      case Slider =>
      case Spinner =>
      case ManiaHold =>
    }
    ColorSkipBits(t.colorSkip);
  }

  /** A colour skip is read back from its three bits. */
  lemma ColorSkipBits(c: ColorSkip)
    ensures ColorSkipOf(c >= 4, c % 4 >= 2, c % 2 == 1) == c
  {
    match c
    case 0 => case 1 => case 2 => case 3 => case 4 => case 5 => case 6 => case 7 =>
  }
}
