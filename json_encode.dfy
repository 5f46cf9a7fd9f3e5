/** `encode_my_class`, the `default` hook `orjson_dumps` uses for the value
    wrappers (`utils/json.py`). */
module JsonEncode {
  import opened Common
  import opened Numerals
  import opened JsonValue
  import opened Exceptions
  import opened Values

  /** The JSON form of `to_int_or_str()`. */
  function IntOrStrJson(v: IntOrStr): Json {
    match v
    case AsInt(i) => JInt(i)
    case AsText(s) => JStr(s)
  }

  /** `encode_my_class`: an `IntStr` (a `Wei` too) encodes as
      `to_int_or_str()`, a `HexBytes` (a `Hash32` or `Address` too) as its
      "0x" text; anything else, the same-named classes of
      `utils/stdtype.py` included, raises `TypeError`. */
  function EncodeMyClass(v: PyValue): (r: Outcome<Json>)
    ensures r.Ok? <==> IsIntStrOf(v, Datatypes) || IsHexBytesOf(v, Datatypes)
    ensures r.Raise? ==> r.exc == TypeError
    ensures IsHexBytesOf(v, Datatypes) ==> r == Ok(JStr(HexBytesText(v.raw)))
    ensures IsIntStrOf(v, Datatypes) ==> r == Ok(IntOrStrJson(ToIntOrStr(v.value)))
    ensures IsIntStrOf(v, Datatypes) && -(Pow2(63) as int) < v.value < Pow2(63) ==> r == Ok(JInt(v.value))
    ensures IsIntStrOf(v, Datatypes) && (v.value >= Pow2(63) || v.value <= -(Pow2(63) as int)) ==>
      r.value.JStr? && ParseDecimal(r.value.s) == Some(v.value)
  {
    if IsIntStrOf(v, Datatypes) then Ok(IntOrStrJson(ToIntOrStr(v.value)))
    else if IsHexBytesOf(v, Datatypes) then Ok(JStr(HexBytesText(v.raw)))
    else Raise(TypeError)
  }

  /** The Python value a JSON scalar decodes to. */
  function ScalarValue(j: Json): PyValue {
    match j
    case JNull => PyNone
    case JBool(b) => PyBool(b)
    case JInt(i) => PyInt(i)
    case JStr(s) => PyStr(s)
    case _ => PyOther
  }

  /** Decoding the encoded value and validating it as the same class gives
      the value back; a number is emitted only while its bit length is
      below 64 (so -2^63 is already text). */
  lemma EncodeMyClassRoundTrip(v: PyValue)
    requires IsIntStrOf(v, Datatypes) || IsHexBytesOf(v, Datatypes)
    ensures v.PyIntStr? ==> IntStrValidate(v.icls, ScalarValue(EncodeMyClass(v).value)) == Ok(v)
    ensures v.PyHexBytes? ==> HexBytesValidate(v.hcls, ScalarValue(EncodeMyClass(v).value)) == Ok(v)
    ensures EncodeMyClass(v).value.JInt? ==>
      -(Pow2(63) as int) < EncodeMyClass(v).value.i < Pow2(63)
  {
    if v.PyIntStr? {
      assert IntStrValidate(v.icls, ScalarValue(EncodeMyClass(v).value)) == Ok(v) by {
        DecimalRoundTrip(v.value);
      }
    } else {
      assert HexBytesValidate(v.hcls, ScalarValue(EncodeMyClass(v).value)) == Ok(v) by {
        HexBytesTextRoundTrip(Datatypes, v.raw);
      }
    }
  }
}
