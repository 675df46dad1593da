/** The byte stream with its cursor, and transactions that fill their fields from it on demand. */
module TxStream {
  import opened Common
  import opened Wire
  import opened TxCodec

  class BCDataStream {
    var input: Bytes
    var readCursor: nat

    constructor ()
      ensures input == [] && readCursor == 0
    {
      input := [];
      readCursor := 0;
    }

    method Write(bytes: Bytes)
      modifies `input
      ensures input == old(input) + bytes
    {
      input := input + bytes;
    }

    method CanReadMore() returns (b: bool)
      ensures b <==> readCursor < |input|
    {
      b := readCursor < |input|;
    }

    /** read_bytes; an error leaves the cursor. */
    method ReadBytes(length: nat) returns (r: Result<Bytes>)
      modifies `readCursor
      ensures match Wire.ReadBytes(input, old(readCursor), length)
              case Ok(Read(b, next)) => r == Ok(b) && readCursor == next
              case Err => r.Err? && readCursor == old(readCursor)
    {
      if readCursor + length <= |input| {
        r := Ok(input[readCursor..readCursor + length]);
        readCursor := readCursor + length;
      } else {
        r := Err;
      }
    }

    /** _read_num for k bytes, unsigned. */
    method ReadNum(k: nat) returns (r: Result<nat>)
      modifies `readCursor
      ensures match ReadLE(input, old(readCursor), k)
              case Ok(Read(n, next)) => r == Ok(n) && readCursor == next
              case Err => r.Err?
    {
      var b := ReadBytes(k);
      r := match b case Ok(bytes) => Ok(FromLE(bytes)) case Err => Err;
    }

    method ReadCompactSize() returns (r: Result<nat>)
      modifies `readCursor
      ensures match Wire.ReadCompactSize(input, old(readCursor))
              case Ok(Read(n, next)) => r == Ok(n) && readCursor == next
              case Err => r.Err?
    {
      if readCursor >= |input| {
        return Err;
      }
      var size := input[readCursor];
      readCursor := readCursor + 1;
      if size == 253 {
        r := ReadNum(2);
      } else if size == 254 {
        r := ReadNum(4);
      } else if size == 255 {
        r := ReadNum(8);
      } else {
        r := Ok(size);
      }
    }

    /** read_bytes(read_compact_size()) */
    method ReadSized() returns (r: Result<Bytes>)
      modifies `readCursor
      ensures match ReadString(input, old(readCursor))
              case Ok(Read(b, next)) => r == Ok(b) && readCursor == next
              case Err => r.Err?
    {
      var n := ReadCompactSize();
      match n {
        case Err => r := Err;
        case Ok(length) => r := ReadBytes(length);
      }
    }
  }

  // ---- The parsers on a stream ----

  method ParseInputFrom(vds: BCDataStream) returns (r: Result<TxIn>)
    modifies vds`readCursor
    ensures match ParseInput(vds.input, old(vds.readCursor))
            case Ok(Read(x, next)) => r == Ok(x) && vds.readCursor == next
            case Err => r.Err?
  {
    hide ReadString;
    r := Err;
    var hash := vds.ReadBytes(32);
    if hash.Ok? {
      var index := vds.ReadNum(4);
      if index.Ok? {
        var script := vds.ReadSized();
        if script.Ok? {
          var sequence := vds.ReadNum(4);
          if sequence.Ok? {
            r := Ok(TxIn(Reversed(hash.value), index.value, script.value, sequence.value, None));
          }
        }
      }
    }
  }

  method ParseOutputFrom(vds: BCDataStream) returns (r: Result<TxOut>)
    modifies vds`readCursor
    ensures match ParseOutput(vds.input, old(vds.readCursor))
            case Ok(Read(x, next)) => r == Ok(x) && vds.readCursor == next
            case Err => r.Err?
  {
    hide ReadString;
    r := Err;
    var value := vds.ReadNum(8);
    if value.Ok? && value.value <= MAX_VALUE {
      var script := vds.ReadSized();
      if script.Ok? {
        r := Ok(TxOut(value.value, script.value));
      }
    }
  }

  /** What is still to be parsed, behind what was. */
  function Behind<T>(done: seq<T>, rest: Result<Read<seq<T>>>): Result<Read<seq<T>>>
  {
    match rest
    case Ok(Read(xs, p)) => Ok(Read(done + xs, p))
    case Err => Err
  }

  lemma BehindStep<T>(done: seq<T>, x: T, rest: Result<Read<seq<T>>>)
    ensures Behind(done + [x], rest) == Behind(done, Behind([x], rest))
  {
    if rest.Ok? {
      ConcatAssoc(done, [x], rest.value.value);
    }
  }

  lemma BehindNothing<T>(rest: Result<Read<seq<T>>>)
    ensures Behind([], rest) == rest
  {
    if rest.Ok? {
      assert [] + rest.value.value == rest.value.value;
    }
  }

  lemma NothingBehind<T>(done: seq<T>, p: nat)
    ensures Behind(done, Ok(Read([], p))) == Ok(Read(done, p))
  {
    assert done + [] == done;
  }

  method ParseInputsFrom(vds: BCDataStream, n: nat) returns (r: Result<seq<TxIn>>)
    modifies vds`readCursor
    ensures match ParseInputs(vds.input, old(vds.readCursor), n)
            case Ok(Read(xs, next)) => r == Ok(xs) && vds.readCursor == next
            case Err => r.Err?
  {
    hide ParseInput;
    var xs: seq<TxIn> := [];
    BehindNothing(ParseInputs(vds.input, vds.readCursor, n));
    for i := 0 to n
      invariant vds.input == old(vds.input)
      invariant Behind(xs, ParseInputs(vds.input, vds.readCursor, n - i))
             == ParseInputs(vds.input, old(vds.readCursor), n)
    {
      ghost var before := vds.readCursor;
      var x := ParseInputFrom(vds);
      match x {
        case Err => return Err;
        case Ok(v) =>
          BehindStep(xs, v, ParseInputs(vds.input, vds.readCursor, n - i - 1));
          xs := xs + [v];
      }
    }
    NothingBehind(xs, vds.readCursor);
    return Ok(xs);
  }

  method ParseOutputsFrom(vds: BCDataStream, n: nat) returns (r: Result<seq<TxOut>>)
    modifies vds`readCursor
    ensures match ParseOutputs(vds.input, old(vds.readCursor), n)
            case Ok(Read(xs, next)) => r == Ok(xs) && vds.readCursor == next
            case Err => r.Err?
  {
    hide ParseOutput;
    var xs: seq<TxOut> := [];
    BehindNothing(ParseOutputs(vds.input, vds.readCursor, n));
    for i := 0 to n
      invariant vds.input == old(vds.input)
      invariant Behind(xs, ParseOutputs(vds.input, vds.readCursor, n - i))
             == ParseOutputs(vds.input, old(vds.readCursor), n)
    {
      var x := ParseOutputFrom(vds);
      match x {
        case Err => return Err;
        case Ok(v) =>
          BehindStep(xs, v, ParseOutputs(vds.input, vds.readCursor, n - i - 1));
          xs := xs + [v];
      }
    }
    NothingBehind(xs, vds.readCursor);
    return Ok(xs);
  }

  /** The elements of one witness. */
  method ParseElementsFrom(vds: BCDataStream) returns (r: Result<seq<Bytes>>)
    modifies vds`readCursor
    ensures match ParseElements(vds.input, old(vds.readCursor))
            case Ok(Read(xs, next)) => r == Ok(xs) && vds.readCursor == next
            case Err => r.Err?
  {
    hide ReadString;
    var count := vds.ReadCompactSize();
    if count.Err? {
      return Err;
    }
    var n := count.value;
    var xs: seq<Bytes> := [];
    ghost var start := vds.readCursor;
    BehindNothing(ParseItems(vds.input, start, n));
    for i := 0 to n
      invariant vds.input == old(vds.input)
      invariant Behind(xs, ParseItems(vds.input, vds.readCursor, n - i)) == ParseItems(vds.input, start, n)
    {
      var x := vds.ReadSized();
      match x {
        case Err => return Err;
        case Ok(v) =>
          BehindStep(xs, v, ParseItems(vds.input, vds.readCursor, n - i - 1));
          xs := xs + [v];
      }
    }
    NothingBehind(xs, vds.readCursor);
    return Ok(xs);
  }

  method ParseWitnessesFrom(vds: BCDataStream, txins: seq<TxIn>) returns (r: Result<seq<TxIn>>)
    modifies vds`readCursor
    ensures match ParseWitnesses(vds.input, old(vds.readCursor), txins)
            case Ok(Read(xs, next)) => r == Ok(xs) && vds.readCursor == next
            case Err => r.Err?
  {
    hide ParseElements, ItemsOk, ConstructWitness;
    var xs: seq<TxIn> := [];
    BehindNothing(ParseWitnesses(vds.input, vds.readCursor, txins));
    assert txins[0..] == txins;
    for i := 0 to |txins|
      invariant vds.input == old(vds.input)
      invariant Behind(xs, ParseWitnesses(vds.input, vds.readCursor, txins[i..]))
             == ParseWitnesses(vds.input, old(vds.readCursor), txins)
    {
      assert txins[i..][0] == txins[i] && txins[i..][1..] == txins[i + 1..];
      var x := ParseElementsFrom(vds);
      if x.Err? || |x.value| >= MAX_SIZE || !ItemsOk(x.value) {
        return Err;
      }
      var y := txins[i].(wit := Some(ConstructWitness(x.value)));
      BehindStep(xs, y, ParseWitnesses(vds.input, vds.readCursor, txins[i + 1..]));
      xs := xs + [y];
    }
    NothingBehind(xs, vds.readCursor);
    return Ok(xs);
  }

  method ParseCountedOutputsFrom(vds: BCDataStream) returns (r: Result<seq<TxOut>>)
    modifies vds`readCursor
    ensures match ParseCountedOutputs(vds.input, old(vds.readCursor))
            case Ok(Read(xs, next)) => r == Ok(xs) && vds.readCursor == next
            case Err => r.Err?
  {
    hide ParseOutputs, Wire.ReadCompactSize;
    r := Err;
    var m := vds.ReadCompactSize();
    if m.Ok? && m.value >= 1 {
      r := ParseOutputsFrom(vds, m.value);
    }
  }

  /** The number of inputs, behind the marker and flag of the segwit form if they are there. */
  method ParseInputCountFrom(vds: BCDataStream) returns (isSegwit: bool, r: Result<nat>)
    modifies vds`readCursor
    ensures match ParseInputCount(vds.input, old(vds.readCursor))
            case Ok(Read(count, next)) => isSegwit == count.0 && r == Ok(count.1) && vds.readCursor == next
            case Err => r.Err?
  {
    hide Wire.ReadCompactSize;
    var n := vds.ReadCompactSize();
    isSegwit := n == Ok(0);
    r := n;
    if isSegwit {
      var marker := vds.ReadBytes(1);
      if marker != Ok([1]) {
        return isSegwit, Err;
      }
      r := vds.ReadCompactSize();
    }
  }

  /** The version and the inputs. */
  method ParseHeadFrom(vds: BCDataStream) returns (r: Result<(int, bool, seq<TxIn>)>)
    requires vds.readCursor == 0
    modifies vds`readCursor
    ensures match ParseHead(vds.input)
            case Ok(Read(head, next)) => r == Ok(head) && vds.readCursor == next
            case Err => r.Err?
  {
    hide ReadLE, ParseInputCount, ParseInputs;
    r := Err;
    var v := vds.ReadNum(4);
    if v.Ok? {
      var isSegwit, n := ParseInputCountFrom(vds);
      if n.Ok? && n.value >= 1 {
        var txins := ParseInputsFrom(vds, n.value);
        if txins.Ok? {
          r := Ok((Signed32(v.value), isSegwit, txins.value));
        }
      }
    }
  }

  /** The outputs, and the inputs with their witnesses; the outputs may be there without the inputs. */
  method ParseMiddleFrom(vds: BCDataStream, isSegwit: bool, txins: seq<TxIn>)
    returns (outs: Option<seq<TxOut>>, r: Result<seq<TxIn>>)
    modifies vds`readCursor
    ensures match ParseMiddle(vds.input, old(vds.readCursor), isSegwit, txins)
            case Ok(Read(middle, next)) => r == Ok(middle.0) && outs == Some(middle.1) && vds.readCursor == next
            case Err => r.Err?
  {
    hide ParseCountedOutputs, ParseWitnesses;
    var outputs := ParseCountedOutputsFrom(vds);
    if outputs.Err? {
      return None, Err;
    }
    outs := Some(outputs.value);
    if isSegwit {
      r := ParseWitnessesFrom(vds, txins);
    } else {
      r := Ok(txins);
    }
  }

  /** The locktime, and whether it was there with nothing behind it. */
  method ReadEnd(vds: BCDataStream) returns (locktime: nat, ok: bool)
    modifies vds`readCursor
    ensures match ReadLE(vds.input, old(vds.readCursor), 4)
            case Ok(Read(n, next)) => locktime == n && (ok <==> next >= |vds.input|)
            case Err => locktime == 0 && !ok
  {
    var l := vds.ReadNum(4);
    if l.Err? {
      return 0, false;
    }
    var more := vds.CanReadMore();
    return l.value, !more;
  }

  // ---- Transactions ----

  class Transaction {
    var cached: Option<Bytes>          // the network form
    var inputs: Option<seq<TxIn>>
    var outputs: Option<seq<TxOut>>
    var locktime: nat
    var version: int

    constructor (raw: Option<Bytes>)
      ensures cached == raw && inputs.None? && outputs.None? && locktime == 0 && version == 2
    {
      cached, inputs, outputs, locktime, version := raw, None, None, 0, 2;
    }

    /** The transaction in the fields, when it was deserialized. */
    function Fields(): Tx
      reads this
      requires inputs.Some? && outputs.Some?
    {
      Tx(version, inputs.value, outputs.value, locktime)
    }

    /** deserialize; false is an exception. Inputs are exposed before the locktime is read and the end is checked, so an
        exception about those leaves them behind, and a later call does nothing. */
    method Deserialize() returns (ok: bool)
      modifies this
      ensures cached == old(cached)
      ensures old(cached.None? || inputs.Some?) ==> ok && unchanged(this)
      ensures old(cached.Some? && inputs.None?) ==>
                var tx := TxCodec.Deserialize(cached.value);
                && (ok <==> tx.Ok?)
                && (ok ==> inputs.Some? && outputs.Some? && Ok(Fields()) == tx)
                && (inputs.Some? <==> Exposed(cached.value).Ok?)
    {
      if cached.None? || inputs.Some? {
        return true;
      }
      var vds := new BCDataStream();
      vds.Write(cached.value);
      assert vds.input == cached.value;
      hide ReadLE, ParseHead, ParseMiddle;
      var head := ParseHeadFrom(vds);
      if head.Err? {
        return false;
      }
      version := head.value.0;
      var outs, txins := ParseMiddleFrom(vds, head.value.1, head.value.2);
      outputs := outs;
      if txins.Err? {
        return false;
      }
      inputs := Some(txins.value);
      locktime, ok := ReadEnd(vds);
    }
  }
}
