/** The type mapper halide_type_to_coli_type_str and the width casts written
    before integer literals. */
module TypeMap {
  import opened Outcomes
  import opened Ir
  import opened Text

  /** Coli's primitive types, one per `coli::p_*` tag. */
  datatype Primitive =
    | PUInt8 | PUInt16 | PUInt32 | PUInt64
    | PInt8 | PInt16 | PInt32 | PInt64
    | PFloat32 | PFloat64
    | PBoolean

  /** The tag a primitive type is written as. */
  function PrimitiveText(p: Primitive): string {
    match p
    case PUInt8 => "coli::p_uint8"
    case PUInt16 => "coli::p_uint16"
    case PUInt32 => "coli::p_uint32"
    case PUInt64 => "coli::p_uint64"
    case PInt8 => "coli::p_int8"
    case PInt16 => "coli::p_int16"
    case PInt32 => "coli::p_int32"
    case PInt64 => "coli::p_int64"
    case PFloat32 => "coli::p_float32"
    case PFloat64 => "coli::p_float64"
    case PBoolean => "coli::p_boolean"
  }

  /** halide_type_to_coli_type_str exactly as written: the unsigned branch is
      tested first, and Halide's is_uint() also holds for booleans (UInt of one
      bit), so the boolean branch can never be reached. */
  function TypeTagAsWritten(t: Type): Result<Primitive> {
    if IsUInt(t) then
      Ok(if t.bits == 8 then PUInt8
         else if t.bits == 16 then PUInt16
         else if t.bits == 32 then PUInt32
         else PUInt64)
    else if IsInt(t) then
      Ok(if t.bits == 8 then PInt8
         else if t.bits == 16 then PInt16
         else if t.bits == 32 then PInt32
         else PInt64)
    else if IsFloat(t) then
      if t.bits == 32 then Ok(PFloat32)
      else if t.bits == 64 then Ok(PFloat64)
      else Err(UntranslatableType)
    else if IsBool(t) then Ok(PBoolean)
    else Err(UntranslatableType)
  }

  /** As written, a boolean gets the 64-bit unsigned tag and no type ever gets
      the boolean tag. */
  lemma BoolTagAsWritten()
    ensures TypeTagAsWritten(Bool) == Ok(PUInt64)
    ensures forall t :: TypeTagAsWritten(t) != Ok(PBoolean)
  {
  }

  /** The mapper as intended: booleans are recognised before other unsigned types.
      The rest of the model uses this one. */
  function TypeTag(t: Type): Result<Primitive> {
    if IsBool(t) then Ok(PBoolean)
    else TypeTagAsWritten(t)
  }

  /** Exactly the booleans get the boolean tag. */
  lemma BoolTag(t: Type)
    ensures TypeTag(t) == Ok(PBoolean) <==> IsBool(t)
  {
  }

  lemma SmallDecimals()
    ensures Decimal(8) == "8" && Decimal(16) == "16" && Decimal(32) == "32"
  {
    assert Digits(16) == Digits(1) + [DigitChar(6)];
    assert Digits(32) == Digits(3) + [DigitChar(2)];
  }

  /** Integers of 8, 16 or 32 bits get the matching tag; every other integer width
      falls back to the 64-bit tag. */
  lemma IntegerTags(t: Type)
    requires (IsInt(t) || IsUInt(t)) && !IsBool(t)
    ensures TypeTag(t).Ok?
    ensures PrimitiveText(TypeTag(t).value)
         == (if IsUInt(t) then "coli::p_uint" else "coli::p_int")
            + (if t.bits in {8, 16, 32} then Decimal(t.bits) else "64")
  {
    SmallDecimals();
    var w := if t.bits in {8, 16, 32} then Decimal(t.bits) else "64";
    if IsUInt(t) {
      if t.bits == 8 { assert "coli::p_uint" + w == "coli::p_uint8"; }
      else if t.bits == 16 { assert "coli::p_uint" + w == "coli::p_uint16"; }
      else if t.bits == 32 { assert "coli::p_uint" + w == "coli::p_uint32"; }
      else { assert "coli::p_uint" + w == "coli::p_uint64"; }
    } else {
      if t.bits == 8 { assert "coli::p_int" + w == "coli::p_int8"; }
      else if t.bits == 16 { assert "coli::p_int" + w == "coli::p_int16"; }
      else if t.bits == 32 { assert "coli::p_int" + w == "coli::p_int32"; }
      else { assert "coli::p_int" + w == "coli::p_int64"; }
    }
  }

  /** The mapper fails exactly on handles and on floats other than 32 and 64 bits. */
  lemma TypeTagFails(t: Type)
    ensures TypeTag(t).Err? <==> t.code == Handle || (t.code == Float && t.bits != 32 && t.bits != 64)
    ensures TypeTag(t).Err? ==> TypeTag(t).fault == UntranslatableType
  {
  }

  /** The cast written before an IntImm literal. */
  function IntCast(bits: nat): string {
    if bits == 8 then "(int8_t)"
    else if bits == 16 then "(int16_t)"
    else if bits == 32 then "(int32_t)"
    else ""
  }

  /** The cast written before a UIntImm literal. */
  function UIntCast(bits: nat): string {
    if bits == 8 then "(uint8_t)"
    else if bits == 16 then "(uint16_t)"
    else if bits == 32 then "(uint32_t)"
    else ""
  }

  /** Literals of 8, 16 and 32 bits carry a cast naming their width; all other
      widths are written without one. */
  lemma LiteralCasts(bits: nat)
    ensures IntCast(bits) == (if bits in {8, 16, 32} then "(int" + Decimal(bits) + "_t)" else "")
    ensures UIntCast(bits) == (if bits in {8, 16, 32} then "(uint" + Decimal(bits) + "_t)" else "")
  {
    SmallDecimals();
    if bits == 8 {
      assert "(int" + "8" + "_t)" == "(int8_t)";
      assert "(uint" + "8" + "_t)" == "(uint8_t)";
    } else if bits == 16 {
      assert "(int" + "16" + "_t)" == "(int16_t)";
      assert "(uint" + "16" + "_t)" == "(uint16_t)";
    } else if bits == 32 {
      assert "(int" + "32" + "_t)" == "(int32_t)";
      assert "(uint" + "32" + "_t)" == "(uint32_t)";
    }
  }
}
