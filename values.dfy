/** The value wrappers `IntStr` and `HexBytes` with their subclasses `Wei`,
    `Hash32` and `Address` (`datatypes/base.py`), and the copies of `IntStr`
    and `HexBytes` in `utils/stdtype.py`, which are distinct classes with the
    same code. */
module Values {
  import opened Common
  import opened Text
  import opened Numerals
  import opened Exceptions

  /** The module a wrapper class is defined in. */
  datatype Origin = Datatypes | Stdtype

  datatype IntStrClass = IntStrBase | Wei | IntStrStd

  datatype HexBytesClass = HexBytesBase | Hash32 | Address | HexBytesStd

  function IntStrOrigin(c: IntStrClass): Origin {
    if c == IntStrStd then Stdtype else Datatypes
  }

  function HexBytesOrigin(c: HexBytesClass): Origin {
    if c == HexBytesStd then Stdtype else Datatypes
  }

  /** The Python values the wrappers are built from and validate. A wrapper
      instance carries its class and its `value`. */
  datatype PyValue =
    | PyNone
    | PyBool(b: bool)
    | PyInt(i: int)
    | PyStr(s: string)
    | PyBytes(bytes: seq<Byte>)
    | PyIntStr(icls: IntStrClass, value: int)
    | PyHexBytes(hcls: HexBytesClass, raw: seq<Byte>)
    | PyOther

  /** `isinstance(v, IntStr)` for the `IntStr` of module `o` (subclasses
      included). */
  predicate IsIntStrOf(v: PyValue, o: Origin) {
    v.PyIntStr? && IntStrOrigin(v.icls) == o
  }

  predicate IsHexBytesOf(v: PyValue, o: Origin) {
    v.PyHexBytes? && HexBytesOrigin(v.hcls) == o
  }

  /** `IntStr.__init__` of module `o`: the `value` it stores. A `bool` is an
      `int` in Python; the model stores it as 0 or 1. */
  function IntStrInit(o: Origin, v: PyValue): (r: Outcome<int>)
    ensures v.PyStr? ==> (r.Ok? <==> ParseIntLiteral(v.s).Some?)
    ensures v.PyStr? && r.Ok? ==> Some(r.value) == ParseIntLiteral(v.s)
    ensures v.PyStr? && r.Raise? ==> r.exc == ValueError
    ensures v.PyInt? ==> r == Ok(v.i)
    ensures IsIntStrOf(v, o) ==> r == Ok(v.value)
    ensures !(v.PyStr? || v.PyInt? || v.PyBool? || IsIntStrOf(v, o)) ==> r == Raise(TypeError)
  {
    match v
    case PyIntStr(c, x) => if IntStrOrigin(c) == o then Ok(x) else Raise(TypeError)
    case PyInt(i) => Ok(i)
    case PyBool(b) => Ok(if b then 1 else 0)
    case PyStr(s) =>
      (match ParseIntLiteral(s)
       case Some(x) => Ok(x)
       case None => Raise(ValueError))
    case _ => Raise(TypeError)
  }

  /** `str(h)` of a `HexBytes`: "0x" and two lower-case digits per byte. */
  function HexBytesText(b: seq<Byte>): (s: string)
    ensures |s| == 2 + 2 * |b| && StartsWith(s, "0x")
    ensures forall i :: 2 <= i < |s| ==> IsLowerHexDigit(s[i])
  {
    "0x" + HexOfBytes(b)
  }

  /** The string branch of `HexBytes.__init__`: the "0x" prefix is required,
      an odd number of digits gets one leading "0", the rest is
      `bytes.fromhex`. */
  function HexStringBytes(s: string): (r: Outcome<seq<Byte>>)
    ensures !StartsWith(s, "0x") ==> r == Raise(ValueError)
    ensures r.Raise? ==> r.exc == ValueError
    ensures r.Ok? ==> 2 * |r.value| == |s| - 2 + (|s| - 2) % 2
  {
    if !StartsWith(s, "0x") then Raise(ValueError)
    else
      var digits := s[2..];
      var padded := if |digits| % 2 == 1 then "0" + digits else digits;
      match BytesFromHex(padded)
      case Some(b) => Ok(b)
      case None => Raise(ValueError)
  }

  /** `HexBytes.__init__` of module `o`: the `value` it stores. */
  function HexBytesInit(o: Origin, v: PyValue): (r: Outcome<seq<Byte>>)
    ensures v.PyStr? ==> r == HexStringBytes(v.s)
    ensures v.PyBytes? ==> r == Ok(v.bytes)
    ensures IsHexBytesOf(v, o) ==> r == Ok(v.raw)
    ensures !(v.PyStr? || v.PyBytes? || IsHexBytesOf(v, o)) ==> r == Raise(TypeError)
  {
    match v
    case PyHexBytes(c, b) => if HexBytesOrigin(c) == o then Ok(b) else Raise(TypeError)
    case PyBytes(b) => Ok(b)
    case PyStr(s) => HexStringBytes(s)
    case _ => Raise(TypeError)
  }

  /** What `to_int_or_str` returns. */
  datatype IntOrStr = AsInt(i: int) | AsText(s: string)

  function Abs(v: int): nat {
    if v < 0 then -v else v
  }

  /** `to_int_or_str`: the number itself while its bit length is below 64
      (so -2^63, whose bit length is 64, is already text), its decimal
      text otherwise. */
  function ToIntOrStr(v: int): (r: IntOrStr)
    ensures r.AsText? <==> v >= Pow2(63) || v <= -(Pow2(63) as int)
    ensures r.AsInt? ==> r.i == v
    ensures r.AsText? ==> ParseDecimal(r.s) == Some(v)
  {
    BitLengthAtLeast(Abs(v), 63);
    DecimalRoundTrip(v);
    if BitLength(Abs(v)) >= 64 then AsText(Decimal(v)) else AsInt(v)
  }

  datatype CmpOp = Lt | Le | Eq | Ne | Ge | Gt

  function CompareInts(op: CmpOp, a: int, b: int): bool {
    match op
    case Lt => a < b
    case Le => a <= b
    case Eq => a == b
    case Ne => a != b
    case Ge => a >= b
    case Gt => a > b
  }

  /** Python's ordering of `bytes`: lexicographic, a proper prefix first. */
  predicate BytesLess(a: seq<Byte>, b: seq<Byte>)
    decreases |a|
  {
    if |a| == 0 then |b| > 0
    else if |b| == 0 then false
    else if a[0] != b[0] then a[0] < b[0]
    else BytesLess(a[1..], b[1..])
  }

  function CompareBytes(op: CmpOp, a: seq<Byte>, b: seq<Byte>): bool {
    match op
    case Lt => BytesLess(a, b)
    case Le => BytesLess(a, b) || a == b
    case Eq => a == b
    case Ne => a != b
    case Ge => BytesLess(b, a) || a == b
    case Gt => BytesLess(b, a)
  }

  /** `IntStr.__lt__` and its siblings: the other operand goes through the
      constructor of the same module, so one that cannot be converted raises
      instead of comparing unequal. */
  function IntStrCompare(op: CmpOp, o: Origin, self: int, other: PyValue): (r: Outcome<bool>)
    ensures r.Ok? <==> IntStrInit(o, other).Ok?
    ensures r.Ok? ==> r.value == CompareInts(op, self, IntStrInit(o, other).value)
    ensures r.Raise? ==> r.exc == IntStrInit(o, other).exc
  {
    match IntStrInit(o, other)
    case Ok(x) => Ok(CompareInts(op, self, x))
    case Raise(e) => Raise(e)
  }

  /** `HexBytes.__lt__` and its siblings. */
  function HexBytesCompare(op: CmpOp, o: Origin, self: seq<Byte>, other: PyValue): (r: Outcome<bool>)
    ensures r.Ok? <==> HexBytesInit(o, other).Ok?
    ensures r.Ok? ==> r.value == CompareBytes(op, self, HexBytesInit(o, other).value)
    ensures r.Raise? ==> r.exc == HexBytesInit(o, other).exc
  {
    match HexBytesInit(o, other)
    case Ok(b) => Ok(CompareBytes(op, self, b))
    case Raise(e) => Raise(e)
  }

  /** `IntStr.validate` called on class `c`: instances of the module's
      `IntStr` come back as they are, ints and strings are converted, and
      every other value passes through. */
  function IntStrValidate(c: IntStrClass, v: PyValue): (r: Outcome<PyValue>)
    ensures IsIntStrOf(v, IntStrOrigin(c)) ==> r == Ok(v)
    ensures !(IsIntStrOf(v, IntStrOrigin(c)) || v.PyInt? || v.PyBool? || v.PyStr?) ==> r == Ok(v)
    ensures !IsIntStrOf(v, IntStrOrigin(c)) && (v.PyInt? || v.PyBool? || v.PyStr?) ==>
      (r.Ok? <==> IntStrInit(IntStrOrigin(c), v).Ok?) &&
      (r.Ok? ==> r.value == PyIntStr(c, IntStrInit(IntStrOrigin(c), v).value))
  {
    if IsIntStrOf(v, IntStrOrigin(c)) then Ok(v)
    else if v.PyInt? || v.PyBool? || v.PyStr? then
      match IntStrInit(IntStrOrigin(c), v)
      case Ok(x) => Ok(PyIntStr(c, x))
      case Raise(e) => Raise(e)
    else Ok(v)
  }

  /** `HexBytes.validate` called on class `c`: instances come back as they
      are, bytes and "0x" strings are converted, every other value (a string
      without "0x" included) passes through. */
  function HexBytesValidate(c: HexBytesClass, v: PyValue): (r: Outcome<PyValue>)
    ensures IsHexBytesOf(v, HexBytesOrigin(c)) ==> r == Ok(v)
    ensures v.PyStr? && !StartsWith(v.s, "0x") ==> r == Ok(v)
    ensures v.PyBytes? || (v.PyStr? && StartsWith(v.s, "0x")) ==>
      (r.Ok? <==> HexBytesInit(HexBytesOrigin(c), v).Ok?) &&
      (r.Ok? ==> r.value == PyHexBytes(c, HexBytesInit(HexBytesOrigin(c), v).value))
  {
    if IsHexBytesOf(v, HexBytesOrigin(c)) then Ok(v)
    else if v.PyBytes? || (v.PyStr? && StartsWith(v.s, "0x")) then
      match HexBytesInit(HexBytesOrigin(c), v)
      case Ok(b) => Ok(PyHexBytes(c, b))
      case Raise(e) => Raise(e)
    else Ok(v)
  }

  /** `IntStr(str(x))` and `IntStr(hex(x))` give `x` back. */
  lemma IntStrTextRoundTrip(o: Origin, x: int)
    ensures IntStrInit(o, PyStr(Decimal(x))) == Ok(x)
    ensures IntStrInit(o, PyStr(Hex(x))) == Ok(x)
  {
    DecimalRoundTrip(x);
    HexRoundTrip(x);
  }

  /** An `IntStr` equals its own decimal and hexadecimal text, e.g.
      `IntStr(16) == "0x10"`. */
  lemma IntStrEqualsItsText(o: Origin, x: int)
    ensures IntStrCompare(Eq, o, x, PyStr(Decimal(x))) == Ok(true)
    ensures IntStrCompare(Eq, o, x, PyStr(Hex(x))) == Ok(true)
    ensures IntStrCompare(Ne, o, x, PyStr(Hex(x))) == Ok(false)
  {
    IntStrTextRoundTrip(o, x);
  }

  /** `HexBytes(str(h))` has the bytes of `h`. */
  lemma {:induction false} HexBytesTextRoundTrip(o: Origin, b: seq<Byte>)
    ensures HexBytesInit(o, PyStr(HexBytesText(b))) == Ok(b)
  {
    var s := HexBytesText(b);
    assert s[2..] == HexOfBytes(b);
    BytesHexRoundTrip(b);
  }

  /** An odd count of digits reads as if it had one more leading zero. */
  lemma OddDigitsPadded(digits: string)
    requires |digits| % 2 == 1
    ensures HexStringBytes("0x" + digits) == HexStringBytes("0x0" + digits)
  {
    assert ("0x" + digits)[2..] == digits;
    assert ("0x0" + digits)[2..] == "0" + digits;
    assert StartsWith("0x" + digits, "0x") && StartsWith("0x0" + digits, "0x");
  }

  /** `BytesLess` is a strict total order, so the six comparisons agree with
      each other. */
  lemma {:induction false} BytesOrderTotal(a: seq<Byte>, b: seq<Byte>)
    ensures !BytesLess(a, a)
    ensures a != b ==> BytesLess(a, b) != BytesLess(b, a)
    ensures a == b ==> !BytesLess(a, b) && !BytesLess(b, a)
    decreases |a|
  {
    if |a| > 0 {
      BytesOrderTotal(a[1..], a[1..]);
      if |b| > 0 && a[0] == b[0] {
        BytesOrderTotal(a[1..], b[1..]);
        if a[1..] == b[1..] {
          assert a == [a[0]] + a[1..] && b == [b[0]] + b[1..];
        }
      }
    }
  }

  /** The comparisons of `HexBytes` come in complementary pairs. */
  lemma HexBytesComparisonsComplement(o: Origin, self: seq<Byte>, other: PyValue)
    requires HexBytesInit(o, other).Ok?
    ensures HexBytesCompare(Lt, o, self, other).value == !HexBytesCompare(Ge, o, self, other).value
    ensures HexBytesCompare(Gt, o, self, other).value == !HexBytesCompare(Le, o, self, other).value
    ensures HexBytesCompare(Eq, o, self, other).value == !HexBytesCompare(Ne, o, self, other).value
  {
    BytesOrderTotal(self, HexBytesInit(o, other).value);
  }

  /** Validation is idempotent: validating a validated value changes nothing. */
  lemma ValidateIdempotent(ic: IntStrClass, hc: HexBytesClass, v: PyValue)
    ensures IntStrValidate(ic, v).Ok? ==>
      IntStrValidate(ic, IntStrValidate(ic, v).value) == IntStrValidate(ic, v)
    ensures HexBytesValidate(hc, v).Ok? ==>
      HexBytesValidate(hc, HexBytesValidate(hc, v).value) == HexBytesValidate(hc, v)
  {
  }

  /** The two modules parse plain values alike, and each rejects the other's
      instances. */
  lemma ModulesAgreeOnPlainValues(v: PyValue)
    ensures !v.PyIntStr? ==> IntStrInit(Datatypes, v) == IntStrInit(Stdtype, v)
    ensures !v.PyHexBytes? ==> HexBytesInit(Datatypes, v) == HexBytesInit(Stdtype, v)
    ensures v.PyIntStr? ==>
      (IntStrInit(Datatypes, v).Raise? <==> IntStrInit(Stdtype, v).Ok?)
    ensures v.PyHexBytes? ==>
      (HexBytesInit(Datatypes, v).Raise? <==> HexBytesInit(Stdtype, v).Ok?)
  {
  }

  /** `Wei`, `Hash32` and `Address` only add `to_web3`: validation through a
      subclass yields the parent's value under the subclass's name. */
  lemma SubclassesParseAlike(v: PyValue)
    ensures IntStrValidate(Wei, v).Ok? && !IsIntStrOf(v, Datatypes) && (v.PyInt? || v.PyBool? || v.PyStr?) ==>
      IntStrValidate(IntStrBase, v) == Ok(PyIntStr(IntStrBase, IntStrValidate(Wei, v).value.value))
    ensures HexBytesValidate(Address, v).Ok? && HexBytesValidate(Address, v).value != v ==>
      HexBytesValidate(Hash32, v) == Ok(PyHexBytes(Hash32, HexBytesValidate(Address, v).value.raw))
  {
  }
}
