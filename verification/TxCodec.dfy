/** Network serialization of transactions (BIP-144, section "Serialization"): the byte stream, the parsers and the
    serializer. */
module TxCodec {
  import opened Common
  import opened Wire

  // ---- Transactions ----

  /** An input; its witness, if any, is kept in serialized form. */
  datatype TxIn = TxIn(txid: Bytes, index: nat, scriptSig: Bytes, sequence: nat, wit: Option<Bytes>)

  datatype TxOut = TxOut(value: int, script: Bytes)

  datatype Tx = Tx(version: int, inputs: seq<TxIn>, outputs: seq<TxOut>, locktime: nat)

  const UINT32: nat := 0x1_0000_0000
  const MAX_VALUE: int := 21000000 * 100000000

  predicate InOk(i: TxIn)
  {
    |i.txid| == 32 && i.index < UINT32 && i.sequence < UINT32 && |i.scriptSig| < MAX_SIZE
  }

  predicate OutOk(o: TxOut) { 0 <= o.value <= MAX_VALUE && |o.script| < MAX_SIZE }

  predicate InsOk(xs: seq<TxIn>) { xs == [] || (InOk(xs[0]) && InsOk(xs[1..])) }

  predicate OutsOk(xs: seq<TxOut>) { xs == [] || (OutOk(xs[0]) && OutsOk(xs[1..])) }

  /** In-range fields, and at least one input and output. */
  predicate TxOk(tx: Tx)
  {
    && -0x8000_0000 <= tx.version < 0x8000_0000 && tx.locktime < UINT32
    && 0 < |tx.inputs| < MAX_SIZE && 0 < |tx.outputs| < MAX_SIZE
    && InsOk(tx.inputs) && OutsOk(tx.outputs)
  }

  // ---- Serializing ----

  function Reversed(b: Bytes): (r: Bytes)
    ensures |r| == |b| && forall i :: 0 <= i < |b| ==> r[i] == b[|b| - 1 - i]
  {
    seq(|b|, i requires 0 <= i < |b| => b[|b| - 1 - i])
  }

  function InBytes(i: TxIn): Bytes
    requires InOk(i)
  {
    Reversed(i.txid) + (ToLE(i.index, 4) + (WitnessPush(i.scriptSig) + ToLE(i.sequence, 4)))
  }

  function OutBytes(o: TxOut): Bytes
    requires OutOk(o)
  {
    ToLE(o.value, 8) + WitnessPush(o.script)
  }

  function InsBytes(xs: seq<TxIn>): Bytes
    requires InsOk(xs)
  {
    if xs == [] then [] else InBytes(xs[0]) + InsBytes(xs[1..])
  }

  function OutsBytes(xs: seq<TxOut>): Bytes
    requires OutsOk(xs)
  {
    if xs == [] then [] else OutBytes(xs[0]) + OutsBytes(xs[1..])
  }

  predicate ItemsOk(items: seq<Bytes>) { items == [] || (|items[0]| < MAX_SIZE && ItemsOk(items[1..])) }

  function ItemsBytes(items: seq<Bytes>): Bytes
    requires ItemsOk(items)
  {
    if items == [] then [] else WitnessPush(items[0]) + ItemsBytes(items[1..])
  }

  /** construct_witness */
  function ConstructWitness(items: seq<Bytes>): Bytes
    requires |items| < MAX_SIZE && ItemsOk(items)
  {
    VarInt(|items|) + ItemsBytes(items)
  }

  /** TxInput.is_segwit */
  predicate HasWitness(i: TxIn) { i.wit != None && i.wit != Some([]) && i.wit != Some([0]) }

  predicate IsSegwit(xs: seq<TxIn>) { xs != [] && (HasWitness(xs[0]) || IsSegwit(xs[1..])) }

  /** serialize_witness; Err is the failed assertion for an input that never got a witness. */
  function WitnessBytes(i: TxIn): Result<Bytes>
  {
    if i.wit.Some? then Ok(i.wit.value) else if i.txid == seq(32, _ => 0) then Ok([]) else Err
  }

  function WitnessesBytes(xs: seq<TxIn>): Result<Bytes>
  {
    if xs == [] then Ok([])
    else match (WitnessBytes(xs[0]), WitnessesBytes(xs[1..]))
      case (Ok(a), Ok(b)) => Ok(a + b)
      case _ => Err
  }

  /** A signed 32-bit number in two's complement. */
  function Unsigned32(n: int): (u: nat)
    requires -0x8000_0000 <= n < 0x8000_0000
    ensures u < UINT32
  {
    if n < 0 then n + UINT32 else n
  }

  function Signed32(u: nat): int { if u >= 0x8000_0000 then u - UINT32 else u }

  /** The part between the version and the witnesses. */
  function Body(tx: Tx): Bytes
    requires TxOk(tx)
  {
    VarInt(|tx.inputs|) + (InsBytes(tx.inputs) + (VarInt(|tx.outputs|) + OutsBytes(tx.outputs)))
  }

  /** serialize_to_network */
  function Serialize(tx: Tx): Result<Bytes>
    requires TxOk(tx)
  {
    var version, locktime := ToLE(Unsigned32(tx.version), 4), ToLE(tx.locktime, 4);
    if !IsSegwit(tx.inputs) then Ok(version + (Body(tx) + locktime))
    else match WitnessesBytes(tx.inputs)
      case Err => Err
      case Ok(w) => Ok(version + ([0, 1] + (Body(tx) + (w + locktime))))
  }

  // ---- Parsing at a position ----

  function ReadString(s: Bytes, pos: nat): (r: Result<Read<Bytes>>)
    ensures r.Ok? ==> pos < r.value.next <= |s|
  {
    match ReadCompactSize(s, pos)
    case Err => Err
    case Ok(Read(n, p)) => ReadBytes(s, p, n)
  }

  /** parse_input */
  function ParseInput(s: Bytes, pos: nat): (r: Result<Read<TxIn>>)
    ensures r.Ok? ==> pos < r.value.next <= |s|
  {
    match ReadBytes(s, pos, 32)
    case Err => Err
    case Ok(Read(hash, p0)) =>
      match ReadLE(s, p0, 4)
      case Err => Err
      case Ok(Read(index, p1)) =>
        match ReadString(s, p1)
        case Err => Err
        case Ok(Read(script, p2)) =>
          match ReadLE(s, p2, 4)
          case Err => Err
          case Ok(Read(sequence, p3)) => Ok(Read(TxIn(Reversed(hash), index, script, sequence, None), p3))
  }

  /** parse_output; a value with the sign bit set is too large as an unsigned number as well. */
  function ParseOutput(s: Bytes, pos: nat): (r: Result<Read<TxOut>>)
    ensures r.Ok? ==> pos < r.value.next <= |s|
  {
    match ReadLE(s, pos, 8)
    case Err => Err
    case Ok(Read(value, p0)) =>
      if value > MAX_VALUE then Err
      else match ReadString(s, p0)
        case Err => Err
        case Ok(Read(script, p1)) => Ok(Read(TxOut(value, script), p1))
  }

  function ParseInputs(s: Bytes, pos: nat, n: nat): Result<Read<seq<TxIn>>>
    decreases n
  {
    if n == 0 then Ok(Read([], pos))
    else match ParseInput(s, pos)
      case Err => Err
      case Ok(Read(x, p)) =>
        match ParseInputs(s, p, n - 1)
        case Err => Err
        case Ok(Read(xs, q)) => Ok(Read([x] + xs, q))
  }

  function ParseOutputs(s: Bytes, pos: nat, n: nat): Result<Read<seq<TxOut>>>
    decreases n
  {
    if n == 0 then Ok(Read([], pos))
    else match ParseOutput(s, pos)
      case Err => Err
      case Ok(Read(x, p)) =>
        match ParseOutputs(s, p, n - 1)
        case Err => Err
        case Ok(Read(xs, q)) => Ok(Read([x] + xs, q))
  }

  function ParseItems(s: Bytes, pos: nat, n: nat): Result<Read<seq<Bytes>>>
    decreases n
  {
    if n == 0 then Ok(Read([], pos))
    else match ReadString(s, pos)
      case Err => Err
      case Ok(Read(x, p)) =>
        match ParseItems(s, p, n - 1)
        case Err => Err
        case Ok(Read(xs, q)) => Ok(Read([x] + xs, q))
  }

  /** The elements that parse_witness and witness_elements read. */
  function ParseElements(s: Bytes, pos: nat): Result<Read<seq<Bytes>>>
  {
    match ReadCompactSize(s, pos)
    case Err => Err
    case Ok(Read(n, p)) => ParseItems(s, p, n)
  }

  /** TxInput.witness_elements */
  function WitnessElements(i: TxIn): Result<seq<Bytes>>
  {
    if i.wit.None? || i.wit.value == [] then Ok([])
    else match ParseElements(i.wit.value, 0)
      case Err => Err
      case Ok(Read(items, _)) => Ok(items)
  }

  /** parse_witness for one input after the other. */
  function ParseWitnesses(s: Bytes, pos: nat, xs: seq<TxIn>): Result<Read<seq<TxIn>>>
    decreases |xs|
  {
    if xs == [] then Ok(Read([], pos))
    else match ParseElements(s, pos)
      case Err => Err
      case Ok(Read(items, p)) =>
        if |items| >= MAX_SIZE || !ItemsOk(items) then Err
        else match ParseWitnesses(s, p, xs[1..])
          case Err => Err
          case Ok(Read(rest, q)) => Ok(Read([xs[0].(wit := Some(ConstructWitness(items)))] + rest, q))
  }

  /** The outputs, counted. */
  function ParseCountedOutputs(s: Bytes, pos: nat): Result<Read<seq<TxOut>>>
  {
    match ReadCompactSize(s, pos)
    case Err => Err
    case Ok(Read(n, p)) => if n < 1 then Err else ParseOutputs(s, p, n)
  }

  /** The outputs and, in the segwit form, the witnesses. */
  function ParseMiddle(s: Bytes, pos: nat, isSegwit: bool, inputs: seq<TxIn>): Result<Read<(seq<TxIn>, seq<TxOut>)>>
  {
    match ParseCountedOutputs(s, pos)
    case Err => Err
    case Ok(Read(outputs, p1)) =>
      var witnessed: Result<Read<seq<TxIn>>> :=
        if isSegwit then ParseWitnesses(s, p1, inputs) else Ok(Read(inputs, p1));
      match witnessed
      case Err => Err
      case Ok(Read(ins, p2)) => Ok(Read((ins, outputs), p2))
  }

  /** Whether it is the segwit form, and the number of inputs. */
  function ParseInputCount(s: Bytes, pos: nat): Result<Read<(bool, nat)>>
  {
    match ReadCompactSize(s, pos)
    case Err => Err
    case Ok(Read(n, p)) =>
      if n != 0 then Ok(Read((false, n), p))
      else match ReadSegwitCount(s, p)
        case Err => Err
        case Ok(Read(count, q)) => Ok(Read((true, count), q))
  }

  /** The version, whether it is the segwit form, and the inputs without their witnesses. */
  function ParseHead(s: Bytes): Result<Read<(int, bool, seq<TxIn>)>>
  {
    match ReadLE(s, 0, 4)
    case Err => Err
    case Ok(Read(version, p0)) =>
      match ParseInputCount(s, p0)
      case Err => Err
      case Ok(Read((isSegwit, count), p1)) =>
        if count < 1 then Err
        else match ParseInputs(s, p1, count)
          case Err => Err
          case Ok(Read(inputs, p2)) => Ok(Read((Signed32(version), isSegwit, inputs), p2))
  }

  /** What deserialize has read when it exposes the inputs: version, inputs and outputs. */
  function Exposed(s: Bytes): Result<Read<(int, seq<TxIn>, seq<TxOut>)>>
  {
    match ParseHead(s)
    case Err => Err
    case Ok(Read((version, isSegwit, inputs), p)) =>
      match ParseMiddle(s, p, isSegwit, inputs)
      case Err => Err
      case Ok(Read((ins, outs), q)) => Ok(Read((version, ins, outs), q))
  }

  /** Transaction.deserialize */
  function Deserialize(s: Bytes): Result<Tx>
  {
    match Exposed(s)
    case Err => Err
    case Ok(Read((version, ins, outs), p)) =>
      match ReadLE(s, p, 4)
      case Err => Err
      case Ok(Read(locktime, q)) => if q < |s| then Err else Ok(Tx(version, ins, outs, locktime))
  }

  /** The flag behind the segwit marker, and the number of inputs. */
  function ReadSegwitCount(s: Bytes, pos: nat): Result<Read<nat>>
  {
    match ReadBytes(s, pos, 1)
    case Err => Err
    case Ok(Read(flag, p)) => if flag != [1] then Err else ReadCompactSize(s, p)
  }

  // ---- Reading back what was written ----

  lemma ReadStringOf(s: Bytes, pos: nat, item: Bytes)
    requires |item| < MAX_SIZE && At(s, pos, WitnessPush(item))
    ensures ReadString(s, pos) == Ok(Read(item, pos + |WitnessPush(item)|))
  {
    hide ReadCompactSize, ReadBytes, At, VarInt;
    ReadWitnessPush(s, pos, item);
  }

  lemma ReversedTwice(b: Bytes)
    ensures Reversed(Reversed(b)) == b
  {
  }

  lemma FromLEPlain(s: Bytes, pos: nat, n: nat, k: nat)
    requires n < Pow256(k) && At(s, pos, ToLE(n, k))
    ensures ReadLE(s, pos, k) == Ok(Read(n, pos + k))
  {
    ReadLEOfToLE(s, pos, n, k);
  }

  lemma ParseInputOf(s: Bytes, pos: nat, i: TxIn)
    requires InOk(i) && At(s, pos, InBytes(i))
    ensures ParseInput(s, pos) == Ok(Read(i.(wit := None), pos + |InBytes(i)|))
  {
    hide ReadString, ReadLE, ReadBytes, At, WitnessPush, ToLE, Pow256;
    var a, b, c, d := Reversed(i.txid), ToLE(i.index, 4), WitnessPush(i.scriptSig), ToLE(i.sequence, 4);
    Pow256Values();
    AtSplit(s, pos, a, b + (c + d));
    AtSplit(s, pos + 32, b, c + d);
    AtSplit(s, pos + 36, c, d);
    ReadBytesAt(s, pos, a);
    FromLEPlain(s, pos + 32, i.index, 4);
    ReadStringOf(s, pos + 36, i.scriptSig);
    FromLEPlain(s, pos + 36 + |c|, i.sequence, 4);
    ReversedTwice(i.txid);
  }

  lemma ReadBytesAt(s: Bytes, pos: nat, a: Bytes)
    requires At(s, pos, a)
    ensures ReadBytes(s, pos, |a|) == Ok(Read(a, pos + |a|))
  {
  }

  lemma ParseOutputOf(s: Bytes, pos: nat, o: TxOut)
    requires OutOk(o) && At(s, pos, OutBytes(o))
    ensures ParseOutput(s, pos) == Ok(Read(o, pos + |OutBytes(o)|))
  {
    hide ReadString, ReadLE, At, WitnessPush, ToLE, Pow256;
    Pow256Values();
    AtSplit(s, pos, ToLE(o.value, 8), WitnessPush(o.script));
    FromLEPlain(s, pos, o.value, 8);
    ReadStringOf(s, pos + 8, o.script);
  }

  function Stripped(xs: seq<TxIn>): (r: seq<TxIn>)
    ensures |r| == |xs|
  {
    if xs == [] then [] else [xs[0].(wit := None)] + Stripped(xs[1..])
  }

  lemma {:induction false} ParseInputsOf(s: Bytes, pos: nat, xs: seq<TxIn>)
    requires InsOk(xs) && At(s, pos, InsBytes(xs))
    ensures ParseInputs(s, pos, |xs|) == Ok(Read(Stripped(xs), pos + |InsBytes(xs)|))
    decreases |xs|
  {
    hide At, InBytes, InOk, ParseInput;
    if xs != [] {
      AtSplit(s, pos, InBytes(xs[0]), InsBytes(xs[1..]));
      ParseInputOf(s, pos, xs[0]);
      ParseInputsOf(s, pos + |InBytes(xs[0])|, xs[1..]);
    }
  }

  lemma {:induction false} ParseOutputsOf(s: Bytes, pos: nat, xs: seq<TxOut>)
    requires OutsOk(xs) && At(s, pos, OutsBytes(xs))
    ensures ParseOutputs(s, pos, |xs|) == Ok(Read(xs, pos + |OutsBytes(xs)|))
    decreases |xs|
  {
    hide At, OutBytes, OutOk, ParseOutput;
    if xs != [] {
      AtSplit(s, pos, OutBytes(xs[0]), OutsBytes(xs[1..]));
      ParseOutputOf(s, pos, xs[0]);
      ParseOutputsOf(s, pos + |OutBytes(xs[0])|, xs[1..]);
      assert [xs[0]] + xs[1..] == xs;
    }
  }

  lemma {:induction false} ParseItemsOf(s: Bytes, pos: nat, items: seq<Bytes>)
    requires ItemsOk(items) && At(s, pos, ItemsBytes(items))
    ensures ParseItems(s, pos, |items|) == Ok(Read(items, pos + |ItemsBytes(items)|))
    decreases |items|
  {
    hide At, WitnessPush, ReadString;
    if items != [] {
      AtSplit(s, pos, WitnessPush(items[0]), ItemsBytes(items[1..]));
      ReadStringOf(s, pos, items[0]);
      ParseItemsOf(s, pos + |WitnessPush(items[0])|, items[1..]);
      assert [items[0]] + items[1..] == items;
    }
  }

  lemma ParseElementsOf(s: Bytes, pos: nat, items: seq<Bytes>)
    requires |items| < MAX_SIZE && ItemsOk(items) && At(s, pos, ConstructWitness(items))
    ensures ParseElements(s, pos) == Ok(Read(items, pos + |ConstructWitness(items)|))
  {
    hide At, VarInt, ItemsBytes, ParseItems, ReadCompactSize;
    AtSplit(s, pos, VarInt(|items|), ItemsBytes(items));
    ReadCompactSizeOfVarInt(s, pos, |items|);
    ParseItemsOf(s, pos + |VarInt(|items|)|, items);
  }

  /** witness_elements gives back the stack a witness was constructed from. */
  lemma WitnessElementsOf(i: TxIn, items: seq<Bytes>)
    requires |items| < MAX_SIZE && ItemsOk(items) && i.wit == Some(ConstructWitness(items))
    ensures WitnessElements(i) == Ok(items)
  {
    hide ParseElements;
    var w := ConstructWitness(items);
    assert w[0..0 + |w|] == w;
    ParseElementsOf(w, 0, items);
  }

  /** Every input has a witness that was constructed from a stack. */
  ghost predicate AllWitnessed(xs: seq<TxIn>, stacks: seq<seq<Bytes>>)
    requires |xs| == |stacks|
  {
    xs == [] || (|stacks[0]| < MAX_SIZE && ItemsOk(stacks[0]) && xs[0].wit == Some(ConstructWitness(stacks[0]))
                 && AllWitnessed(xs[1..], stacks[1..]))
  }

  lemma {:induction false} ParseWitnessesOf(s: Bytes, pos: nat, xs: seq<TxIn>, stacks: seq<seq<Bytes>>)
    requires |xs| == |stacks| && AllWitnessed(xs, stacks)
    requires WitnessesBytes(xs).Ok? && At(s, pos, WitnessesBytes(xs).value)
    ensures ParseWitnesses(s, pos, Stripped(xs)) == Ok(Read(xs, pos + |WitnessesBytes(xs).value|))
    decreases |xs|
  {
    hide At, ConstructWitness, ParseElements, ItemsOk;
    if xs != [] {
      var rest := WitnessesBytes(xs[1..]).value;
      AtSplit(s, pos, ConstructWitness(stacks[0]), rest);
      ParseElementsOf(s, pos, stacks[0]);
      ParseWitnessesOf(s, pos + |ConstructWitness(stacks[0])|, xs[1..], stacks[1..]);
      assert Stripped(xs)[1..] == Stripped(xs[1..]);
      assert [xs[0]] + xs[1..] == xs;
    }
  }

  // ---- Round trip ----

  /** What is left of a transaction on the network: without a segwit input no witness at all. */
  function Normal(tx: Tx): Tx
  {
    if IsSegwit(tx.inputs) then tx else tx.(inputs := Stripped(tx.inputs))
  }

  lemma SignedRoundTrip(n: int)
    requires -0x8000_0000 <= n < 0x8000_0000
    ensures Signed32(Unsigned32(n)) == n
  {
  }

  lemma ParseMiddleOf(s: Bytes, pos: nat, tx: Tx, isSegwit: bool, inputs: seq<TxIn>, ins: seq<TxIn>, w: Bytes)
    requires TxOk(tx) && At(s, pos, VarInt(|tx.outputs|) + (OutsBytes(tx.outputs) + (w + ToLE(tx.locktime, 4))))
    requires var p := pos + |VarInt(|tx.outputs|)| + |OutsBytes(tx.outputs)|;
             if isSegwit then ParseWitnesses(s, p, inputs) == Ok(Read(ins, p + |w|)) else inputs == ins && w == []
    ensures var p := pos + |VarInt(|tx.outputs|)| + |OutsBytes(tx.outputs)| + |w|;
            && ParseMiddle(s, pos, isSegwit, inputs) == Ok(Read((ins, tx.outputs), p))
            && ReadLE(s, p, 4) == Ok(Read(tx.locktime, p + 4))
  {
    hide At, VarInt, OutsBytes, ToLE, ParseOutputs, ParseWitnesses, ReadCompactSize, ReadLE, OutsOk, InsOk, Pow256;
    var n, o, l := VarInt(|tx.outputs|), OutsBytes(tx.outputs), ToLE(tx.locktime, 4);
    Pow256Values();
    AtSplit(s, pos, n, o + (w + l));
    AtSplit(s, pos + |n|, o, w + l);
    AtSplit(s, pos + |n| + |o|, w, l);
    ReadCompactSizeOfVarInt(s, pos, |tx.outputs|);
    ParseOutputsOf(s, pos + |n|, tx.outputs);
    FromLEPlain(s, pos + |n| + |o| + |w|, tx.locktime, 4);
  }

  /** The inputs, counted. */
  lemma ParseCountedInputs(s: Bytes, pos: nat, xs: seq<TxIn>)
    requires 0 < |xs| < MAX_SIZE && InsOk(xs) && At(s, pos, VarInt(|xs|) + InsBytes(xs))
    ensures ReadCompactSize(s, pos) == Ok(Read(|xs|, pos + |VarInt(|xs|)|))
    ensures ParseInputs(s, pos + |VarInt(|xs|)|, |xs|)
         == Ok(Read(Stripped(xs), pos + |VarInt(|xs|)| + |InsBytes(xs)|))
  {
    hide At, VarInt, InsBytes, ParseInputs, ReadCompactSize, InsOk;
    AtSplit(s, pos, VarInt(|xs|), InsBytes(xs));
    ReadCompactSizeOfVarInt(s, pos, |xs|);
    ParseInputsOf(s, pos + |VarInt(|xs|)|, xs);
  }

  lemma BodyParts(tx: Tx, rest: Bytes)
    requires TxOk(tx)
    ensures Body(tx) + rest
         == (VarInt(|tx.inputs|) + InsBytes(tx.inputs)) + (VarInt(|tx.outputs|) + (OutsBytes(tx.outputs) + rest))
  {
    hide VarInt, InsBytes, OutsBytes, InsOk, OutsOk;
  }

  lemma LegacyRoundTrip(tx: Tx)
    requires TxOk(tx) && !IsSegwit(tx.inputs)
    ensures Serialize(tx).Ok? && Deserialize(Serialize(tx).value) == Ok(tx.(inputs := Stripped(tx.inputs)))
  {
    hide At, VarInt, InsBytes, OutsBytes, Body, ToLE, ParseInputs, ParseMiddle, ReadCompactSize, ReadLE, InsOk,
         OutsOk, Pow256;
    hide Signed32, Unsigned32;
    Pow256Values();
    SignedRoundTrip(tx.version);
    var v, l := ToLE(Unsigned32(tx.version), 4), ToLE(tx.locktime, 4);
    var n, x := VarInt(|tx.inputs|), InsBytes(tx.inputs);
    var rest := VarInt(|tx.outputs|) + (OutsBytes(tx.outputs) + ([] + l));
    var s := v + (Body(tx) + l);
    assert [] + l == l;
    BodyParts(tx, l);
    AtWhole(s);
    AtSplit(s, 0, v, Body(tx) + l);
    AtSplit(s, 4, n + x, rest);
    FromLEPlain(s, 0, Unsigned32(tx.version), 4);
    ParseCountedInputs(s, 4, tx.inputs);
    ParseMiddleOf(s, 4 + |n + x|, tx, false, Stripped(tx.inputs), Stripped(tx.inputs), []);
  }

  lemma AtWhole(s: Bytes)
    ensures At(s, 0, s)
  {
    assert s[0..0 + |s|] == s;
  }

  lemma ReadMarker(s: Bytes, pos: nat)
    requires At(s, pos, [0, 1])
    ensures ReadCompactSize(s, pos) == Ok(Read(0, pos + 1)) && ReadBytes(s, pos + 1, 1) == Ok(Read([1], pos + 2))
  {
    AtIndex(s, pos, [0, 1], 0);
    AtIndex(s, pos, [0, 1], 1);
    assert s[pos + 1..pos + 2] == [1];
  }

  lemma SegwitRoundTrip(tx: Tx, stacks: seq<seq<Bytes>>)
    requires TxOk(tx) && IsSegwit(tx.inputs) && |stacks| == |tx.inputs| && AllWitnessed(tx.inputs, stacks)
    ensures Serialize(tx).Ok? && Deserialize(Serialize(tx).value) == Ok(tx)
  {
    hide At, VarInt, InsBytes, OutsBytes, Body, ToLE, ParseInputs, ParseMiddle, ReadCompactSize, ReadLE, InsOk,
         OutsOk, Pow256;
    hide Signed32, Unsigned32, WitnessesBytes, AllWitnessed, IsSegwit, ParseWitnesses, ReadBytes;
    Pow256Values();
    SignedRoundTrip(tx.version);
    AllWitnessedIsOk(tx.inputs, stacks);
    var w := WitnessesBytes(tx.inputs).value;
    var v, l := ToLE(Unsigned32(tx.version), 4), ToLE(tx.locktime, 4);
    var n, x, m, o := VarInt(|tx.inputs|), InsBytes(tx.inputs), VarInt(|tx.outputs|), OutsBytes(tx.outputs);
    var rest := m + (o + (w + l));
    var s := v + ([0, 1] + (Body(tx) + (w + l)));
    BodyParts(tx, w + l);
    AtWhole(s);
    AtSplit(s, 0, v, [0, 1] + (Body(tx) + (w + l)));
    AtSplit(s, 4, [0, 1], Body(tx) + (w + l));
    AtSplit(s, 6, n + x, rest);
    ReadMarker(s, 4);
    FromLEPlain(s, 0, Unsigned32(tx.version), 4);
    ParseCountedInputs(s, 6, tx.inputs);
    var p := 6 + |n + x|;
    AtSplit(s, p, m, o + (w + l));
    AtSplit(s, p + |m|, o, w + l);
    AtSplit(s, p + |m| + |o|, w, l);
    ParseWitnessesOf(s, p + |m| + |o|, tx.inputs, stacks);
    ParseMiddleOf(s, p, tx, true, Stripped(tx.inputs), tx.inputs, w);
  }

  lemma {:induction false} AllWitnessedIsOk(xs: seq<TxIn>, stacks: seq<seq<Bytes>>)
    requires |xs| == |stacks| && AllWitnessed(xs, stacks)
    ensures WitnessesBytes(xs).Ok?
    decreases |xs|
  {
    if xs != [] {
      AllWitnessedIsOk(xs[1..], stacks[1..]);
    }
  }

  /** Deserializing the network form gives back version, inputs, outputs, witness stacks and locktime and consumes every
      byte; a transaction without a non-empty witness loses its empty ones. */
  lemma DeserializeOfSerialize(tx: Tx, stacks: seq<seq<Bytes>>)
    requires TxOk(tx) && |stacks| == |tx.inputs| && (IsSegwit(tx.inputs) ==> AllWitnessed(tx.inputs, stacks))
    ensures Serialize(tx).Ok? && Deserialize(Serialize(tx).value) == Ok(Normal(tx))
  {
    hide Serialize, Deserialize, IsSegwit, TxOk, AllWitnessed;
    if IsSegwit(tx.inputs) {
      SegwitRoundTrip(tx, stacks);
    } else {
      LegacyRoundTrip(tx);
    }
  }

  /** What is dropped held no elements. */
  lemma {:induction false} DroppedWitnessesAreEmpty(xs: seq<TxIn>, k: nat)
    requires !IsSegwit(xs) && k < |xs|
    ensures WitnessElements(xs[k]) == Ok([])
    decreases |xs|
  {
    if k > 0 {
      DroppedWitnessesAreEmpty(xs[1..], k - 1);
    }
  }

  /** The witness of one input missing while another has one: the transaction cannot be serialized, unless the input
      is that of a coinbase. */
  lemma {:induction false} MissingWitnessIsRefused(xs: seq<TxIn>, k: nat)
    requires k < |xs| && xs[k].wit.None? && xs[k].txid != seq(32, _ => 0)
    ensures WitnessesBytes(xs).Err?
    decreases |xs|
  {
    if k > 0 {
      MissingWitnessIsRefused(xs[1..], k - 1);
    }
  }
}
