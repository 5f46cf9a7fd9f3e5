/** The conversions of `utils/convert.py`. */
module Convert {
  import opened Common
  import opened Numerals
  import opened Exceptions
  import opened Values

  /** `parse_hex_or_strint`: a string goes through `int(v, 0)`; every other
      value is returned unchanged. */
  function ParseHexOrStrint(v: PyValue): (r: Outcome<PyValue>)
    ensures !v.PyStr? ==> r == Ok(v)
    ensures v.PyStr? ==> (r.Ok? <==> ParseIntLiteral(v.s).Some?)
    ensures v.PyStr? && r.Ok? ==> r.value == PyInt(ParseIntLiteral(v.s).value)
    ensures r.Raise? ==> r.exc == ValueError
  {
    if !v.PyStr? then Ok(v)
    else
      match ParseIntLiteral(v.s)
      case Some(i) => Ok(PyInt(i))
      case None => Raise(ValueError)
  }

  /** Hexadecimal and decimal text both read back as the number printed. */
  lemma ParseHexOrStrintReadsPrinted(i: int)
    ensures ParseHexOrStrint(PyStr(Hex(i))) == Ok(PyInt(i))
    ensures ParseHexOrStrint(PyStr(Decimal(i))) == Ok(PyInt(i))
  {
    HexRoundTrip(i);
    DecimalRoundTrip(i);
  }

  /** Converting a converted value changes nothing. */
  lemma ParseHexOrStrintIdempotent(v: PyValue)
    ensures ParseHexOrStrint(v).Ok? ==> ParseHexOrStrint(ParseHexOrStrint(v).value) == ParseHexOrStrint(v)
  {
  }

  /** `block_id_transfer`: a `Hash32` becomes its raw bytes (`to_web3`);
      block tags, numbers and every other value are returned unchanged. */
  function BlockIdTransfer(v: PyValue): (r: PyValue)
    ensures v.PyHexBytes? && v.hcls == Hash32 ==> r == PyBytes(v.raw)
    ensures !(v.PyHexBytes? && v.hcls == Hash32) ==> r == v
  {
    match v
    case PyHexBytes(Hash32, raw) => PyBytes(raw)
    case _ => v
  }

  /** `address_transfer`: an `Address` becomes its raw bytes; an ENS name is
      returned unchanged. */
  function AddressTransfer(v: PyValue): (r: PyValue)
    ensures v.PyHexBytes? && v.hcls == Address ==> r == PyBytes(v.raw)
    ensures !(v.PyHexBytes? && v.hcls == Address) ==> r == v
  {
    match v
    case PyHexBytes(Address, raw) => PyBytes(raw)
    case _ => v
  }

  /** Validating the transferred bytes as the same class restores the value,
      and a transferred value is never transferred again. */
  lemma TransferRewraps(v: PyValue)
    ensures v.PyHexBytes? && v.hcls == Hash32 ==> HexBytesValidate(Hash32, BlockIdTransfer(v)) == Ok(v)
    ensures v.PyHexBytes? && v.hcls == Address ==> HexBytesValidate(Address, AddressTransfer(v)) == Ok(v)
    ensures BlockIdTransfer(BlockIdTransfer(v)) == BlockIdTransfer(v)
    ensures AddressTransfer(AddressTransfer(v)) == AddressTransfer(v)
  {
  }
}
