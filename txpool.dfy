/** The `txpool` records of `datatypes/txpool.py`: the status counters and
    the parser of the one-line summaries `txpool_inspect` returns, e.g.
    "0x6b17…: 0 wei + 21000 gas × 12000000000 wei". */
module Txpool {
  import opened Common
  import opened Text
  import opened Numerals
  import opened JsonValue
  import opened Exceptions
  import opened Values
  import opened Geth

  /** `TxpoolStatus`. */
  datatype Status = Status(pending: int, queued: int)

  /** A `pending`/`queued` field: the `int_val` pre-validator reads a string
      with `int(v, 0)`; otherwise the usual `int` coercion applies. */
  function StatusField(j: Json): (r: Outcome<int>)
    ensures j.JStr? ==> (r.Ok? <==> ParseIntLiteral(j.s).Some?)
    ensures j.JStr? && r.Ok? ==> Some(r.value) == ParseIntLiteral(j.s)
    ensures j.JInt? ==> r == Ok(j.i)
    ensures r.Raise? ==> r.exc == ValidationError
  {
    match j
    case JStr(s) =>
      (match ParseIntLiteral(s)
       case Some(i) => Ok(i)
       case None => Raise(ValidationError))
    case JInt(i) => Ok(i)
    case JBool(b) => Ok(if b then 1 else 0)
    case _ => Raise(ValidationError)
  }

  /** `TxpoolStatus.parse_obj`: both counters are required. */
  function ParseStatus(j: Json): (r: Outcome<Status>)
    ensures r.Raise? ==> r.exc == ValidationError || r.exc == TypeError
    ensures j.JObj? && ("pending" !in j.fields || "queued" !in j.fields) ==> r == Raise(ValidationError)
    ensures j.JObj? && r.Ok? ==>
      "pending" in j.fields && StatusField(j.fields["pending"]) == Ok(r.value.pending) &&
      "queued" in j.fields && StatusField(j.fields["queued"]) == Ok(r.value.queued)
  {
    match KeywordArgs(j)
    case Raise(e) => Raise(e)
    case Ok(m) =>
      if "pending" !in m || "queued" !in m then Raise(ValidationError)
      else
        match (StatusField(m["pending"]), StatusField(m["queued"]))
        case (Ok(p), Ok(q)) => Ok(Status(p, q))
        case _ => Raise(ValidationError)
  }

  /** The node reports the counters in hexadecimal; they read back exactly. */
  lemma StatusFromHex(pending: int, queued: int)
    ensures ParseStatus(JObj(map["pending" := JStr(Hex(pending)), "queued" := JStr(Hex(queued))]))
      == Ok(Status(pending, queued))
  {
    assert StatusField(JStr(Hex(pending))) == Ok(pending) by {
      HexRoundTrip(pending);
    }
    assert StatusField(JStr(Hex(queued))) == Ok(queued) by {
      HexRoundTrip(queued);
    }
  }

  /** `TxpoolSnapshot`. */
  datatype Snapshot = Snapshot(contractCreation: bool, toAddress: seq<Byte>, fee: int, gas: int, gasFee: int)

  /** The input of `TxpoolSnapshot.validate`: a summary line, or any other
      value. */
  datatype SnapshotInput = Summary(text: string) | Structured(doc: Json)

  /** A parsed summary, or a non-string value handed on to pydantic's own
      model validation. */
  datatype Validated = Parsed(snapshot: Snapshot) | ModelValidation(doc: Json)

  /** The address `validate` substitutes for "contract creation". */
  const ZeroAddressText: string := "0x0000000000000000000000000000000000000000"

  /** `TxpoolSnapshot.validate`. The steps and the exceptions come in the
      order of the code: the address (its `ValueError`) before the index of
      the second piece (`IndexError`), each amount before the next split. */
  function ValidateSnapshot(input: SnapshotInput): (r: Outcome<Validated>)
    ensures input.Structured? ==> r == Ok(ModelValidation(input.doc))
    ensures r.Ok? && input.Summary? ==>
      && r.value.Parsed?
      && (r.value.snapshot.contractCreation <==> Split(input.text, ": ")[0] == "contract creation")
    ensures r.Raise? ==> r.exc in {ValueError, IndexError}
  {
    match input
    case Structured(doc) => Ok(ModelValidation(doc))
    case Summary(text) =>
      var ss := Split(text, ": ");
      var contractCreation := ss[0] == "contract creation";
      var addressText := if contractCreation then ZeroAddressText else ss[0];
      match HexStringBytes(addressText)
      case Raise(e) => Raise(e)
      case Ok(toAddress) =>
        if |ss| < 2 then Raise(IndexError)
        else
          match ParseAmounts(ss[1])
          case Raise(e) => Raise(e)
          case Ok((fee, gas, gasFee)) => Ok(Parsed(Snapshot(contractCreation, toAddress, fee, gas, gasFee)))
  }

  /** The part of `validate` after the address: "<fee> wei + <gas> gas ×
      <gas fee> wei", each amount read before the next split. */
  function ParseAmounts(amounts: string): (r: Outcome<(int, int, int)>)
    ensures r.Raise? ==> r.exc in {ValueError, IndexError}
  {
    var ss := Split(amounts, " + ");
    match IntStrInit(Datatypes, PyStr(DropLast(ss[0], 4)))
    case Raise(e) => Raise(e)
    case Ok(fee) =>
      if |ss| < 2 then Raise(IndexError)
      else
        var ss2 := Split(ss[1], " × ");
        match ParseDecimal(DropLast(ss2[0], 4))
        case None => Raise(ValueError)
        case Some(gas) =>
          if |ss2| < 2 then Raise(IndexError)
          else
            match IntStrInit(Datatypes, PyStr(DropLast(ss2[1], 4)))
            case Raise(e) => Raise(e)
            case Ok(gasFee) => Ok((fee, gas, gasFee))
  }

  /** The summary line the node writes for a transaction. */
  function SummaryLine(addressText: string, fee: int, gas: int, gasFee: int): string {
    addressText + ": " + FeePart(fee, gas, gasFee)
  }

  function FeePart(fee: int, gas: int, gasFee: int): string {
    Decimal(fee) + " wei" + " + " + GasPart(gas, gasFee)
  }

  function GasPart(gas: int, gasFee: int): string {
    Decimal(gas) + " gas" + " × " + (Decimal(gasFee) + " wei")
  }

  /** An amount "<i> <unit>" contains neither `c` nor any character its
      unit lacks. */
  lemma AmountAvoids(i: int, unit: string, c: char)
    requires c != '-' && !IsDecDigit(c) && c !in unit
    ensures c !in Decimal(i) + unit
  {
    var d := NatDigits(if i < 0 then -i else i, 10);
    assert forall k :: 0 <= k < |d| ==> IsDecDigit(d[k]);
    if i < 0 {
      assert forall k :: 0 < k < |Decimal(i)| ==> Decimal(i)[k] == d[k - 1];
    }
  }

  /** "<gas> gas × <gas fee> wei" splits into its two amounts. */
  lemma SplitGasPart(gas: int, gasFee: int)
    ensures Split(GasPart(gas, gasFee), " × ") == [Decimal(gas) + " gas", Decimal(gasFee) + " wei"]
  {
    var a, b := Decimal(gas) + " gas", Decimal(gasFee) + " wei";
    assert Split(a + " × " + b, " × ") == [a, b] by {
      AmountAvoids(gas, " gas", '×');
      AmountAvoids(gasFee, " wei", '×');
      SplitPair(a, " × ", b, 1);
    }
  }

  /** The gas part contains no character that neither a number nor its
      units and separator contain. */
  lemma GasPartAvoids(gas: int, gasFee: int, c: char)
    requires c != '-' && !IsDecDigit(c) && c !in " gas" && c !in " wei" && c !in " × "
    ensures c !in GasPart(gas, gasFee)
  {
    AmountAvoids(gas, " gas", c);
    AmountAvoids(gasFee, " wei", c);
  }

  /** Likewise for the whole amounts part. */
  lemma FeePartAvoids(fee: int, gas: int, gasFee: int, c: char)
    requires c != '-' && !IsDecDigit(c) && c !in " gas" && c !in " wei" && c !in " × " && c !in " + "
    ensures c !in FeePart(fee, gas, gasFee)
  {
    AmountAvoids(fee, " wei", c);
    GasPartAvoids(gas, gasFee, c);
  }

  /** "<fee> wei + <gas> gas × <gas fee> wei" splits at " + " only once. */
  lemma SplitFeePart(fee: int, gas: int, gasFee: int)
    ensures Split(FeePart(fee, gas, gasFee), " + ") == [Decimal(fee) + " wei", GasPart(gas, gasFee)]
  {
    var a, b := Decimal(fee) + " wei", GasPart(gas, gasFee);
    assert Split(a + " + " + b, " + ") == [a, b] by {
      AmountAvoids(fee, " wei", '+');
      GasPartAvoids(gas, gasFee, '+');
      SplitPair(a, " + ", b, 1);
    }
  }

  /** Two texts without a colon, joined by ": ", split back apart. */
  lemma SplitAtColon(a: string, b: string)
    requires ':' !in a && ':' !in b
    ensures Split(a + ": " + b, ": ") == [a, b]
  {
    SplitPair(a, ": ", b, 0);
  }

  /** The whole line splits at ": " into the address text and the amounts,
      when the address text has no colon. */
  lemma SplitAddressPart(addressText: string, fee: int, gas: int, gasFee: int)
    requires ':' !in addressText
    ensures Split(SummaryLine(addressText, fee, gas, gasFee), ": ") == [addressText, FeePart(fee, gas, gasFee)]
  {
    FeePartAvoids(fee, gas, gasFee, ':');
    SplitAtColon(addressText, FeePart(fee, gas, gasFee));
  }

  /** The amounts the node prints read back exactly. */
  lemma {:induction false} AmountsRoundTrip(fee: int, gas: int, gasFee: int)
    ensures ParseAmounts(FeePart(fee, gas, gasFee)) == Ok((fee, gas, gasFee))
  {
    SplitFeePart(fee, gas, gasFee);
    SplitGasPart(gas, gasFee);
    IntStrTextRoundTrip(Datatypes, fee);
    IntStrTextRoundTrip(Datatypes, gasFee);
    DecimalRoundTrip(gas);
    assert DropLast(Decimal(fee) + " wei", 4) == Decimal(fee);
    assert DropLast(Decimal(gas) + " gas", 4) == Decimal(gas);
    assert DropLast(Decimal(gasFee) + " wei", 4) == Decimal(gasFee);
  }

  /** Parsing the summary of a transaction to `address` recovers the address
      and the three amounts. */
  lemma {:induction false} SummaryRoundTrip(address: seq<Byte>, fee: int, gas: int, gasFee: int)
    ensures ValidateSnapshot(Summary(SummaryLine(HexBytesText(address), fee, gas, gasFee)))
      == Ok(Parsed(Snapshot(false, address, fee, gas, gasFee)))
  {
    var addressText := HexBytesText(address);
    assert ':' !in addressText by {
      assert addressText[0] == '0' && addressText[1] == 'x';
    }
    assert addressText != "contract creation" by {
      assert addressText[0] == '0';
    }
    SplitAddressPart(addressText, fee, gas, gasFee);
    HexBytesTextRoundTrip(Datatypes, address);
    AmountsRoundTrip(fee, gas, gasFee);
  }

  /** Zero bytes print as zero digits, two per byte. */
  lemma {:induction false} ZeroBytesHex(n: nat)
    ensures HexOfBytes(seq(n, _ => 0 as Byte)) == seq(2 * n, _ => '0')
  {
    if n > 0 {
      ZeroBytesHex(n - 1);
      assert seq(n, _ => 0 as Byte)[1..] == seq(n - 1, _ => 0 as Byte);
      assert seq(2 * n, _ => '0') == ['0', '0'] + seq(2 * (n - 1), _ => '0');
    }
  }

  /** A contract creation is flagged and sent to the all-zero address. */
  lemma {:induction false} ContractCreationRoundTrip(fee: int, gas: int, gasFee: int)
    ensures ValidateSnapshot(Summary(SummaryLine("contract creation", fee, gas, gasFee)))
      == Ok(Parsed(Snapshot(true, seq(20, _ => 0 as Byte), fee, gas, gasFee)))
  {
    SplitAddressPart("contract creation", fee, gas, gasFee);
    var zeros := seq(20, _ => 0 as Byte);
    HexBytesTextRoundTrip(Datatypes, zeros);
    ZeroBytesHex(20);
    assert ZeroAddressText == "0x" + seq(40, _ => '0');
    AmountsRoundTrip(fee, gas, gasFee);
  }
}
