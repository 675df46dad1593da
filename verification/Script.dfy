/** Building and reading scripts: script_num_to_bytes, push_script, construct_script, script_GetOp. */
module Script {
  import opened Common
  import opened Wire

  const OP_0: byte := 0x00
  const OP_PUSHDATA1: byte := 0x4c
  const OP_PUSHDATA2: byte := 0x4d
  const OP_PUSHDATA4: byte := 0x4e
  const OP_1NEGATE: byte := 0x4f
  const OP_IF: byte := 0x63
  const OP_ELSE: byte := 0x67
  const OP_ENDIF: byte := 0x68
  const OP_DROP: byte := 0x75
  const OP_SIZE: byte := 0x82
  const OP_EQUAL: byte := 0x87
  const OP_EQUALVERIFY: byte := 0x88
  const OP_HASH160: byte := 0xa9
  const OP_CHECKSIG: byte := 0xac
  const OP_CHECKLOCKTIMEVERIFY: byte := 0xb1

  // ---- Script numbers ----

  /** The little-endian digits of n, without a leading zero digit. */
  function Magnitude(n: nat): (b: Bytes)
    ensures n > 0 ==> |b| > 0
  {
    if n == 0 then [] else [n % 256] + Magnitude(n / 256)
  }

  lemma {:induction false} MagnitudeDigits(n: nat)
    ensures FromLE(Magnitude(n)) == n
    ensures n > 0 ==> Magnitude(n)[|Magnitude(n)| - 1] > 0
  {
    if n > 0 {
      MagnitudeDigits(n / 256);
      assert Magnitude(n)[1..] == Magnitude(n / 256);
    }
  }

  /** The sign bit is put into the top bit, or into one more byte when that bit is taken. */
  function WithSign(m: Bytes, neg: bool): (r: Bytes)
    requires |m| > 0
    ensures |r| > 0
  {
    var k := |m| - 1;
    if m[k] >= 0x80 then m + [if neg then 0x80 else 0x00]
    else if neg then m[k := m[k] + 0x80]
    else m
  }

  function ScriptNum(i: int): Bytes
  {
    if i == 0 then [] else WithSign(Magnitude(if i < 0 then -i else i), i < 0)
  }

  lemma MagnitudeStep(a: Bytes, n: nat)
    requires n > 0
    ensures a + Magnitude(n) == a + [n % 256] + Magnitude(n / 256)
  {
    assert Magnitude(n) == [n % 256] + Magnitude(n / 256);
  }

  method Digits(start: nat) returns (result: Bytes)
    ensures result == Magnitude(start)
  {
    var absvalue := start;
    result := [];
    assert result + Magnitude(absvalue) == Magnitude(start);
    while absvalue > 0
      invariant result + Magnitude(absvalue) == Magnitude(start)
    {
      MagnitudeStep(result, absvalue);
      result := result + [absvalue % 256];
      absvalue := absvalue / 256;
    }
    assert Magnitude(0) == [] && result + [] == result;
  }

  method ScriptNumToBytes(i: int) returns (result: Bytes)
    ensures result == ScriptNum(i)
  {
    if i == 0 {
      return [];
    }
    var neg := i < 0;
    result := Digits(if neg then -i else i);
    if result[|result| - 1] >= 0x80 {
      result := result + [if neg then 0x80 else 0x00];
    } else if neg {
      result := result[|result| - 1 := result[|result| - 1] + 0x80];
    }
  }

  predicate SignBit(b: Bytes)
    requires |b| > 0
  {
    b[|b| - 1] >= 0x80
  }

  function WithoutSign(b: Bytes): Bytes
    requires |b| > 0
  {
    b[|b| - 1 := b[|b| - 1] % 0x80]
  }

  /** CScriptNum::set_vch */
  function DecodeNum(b: Bytes): int
  {
    if b == [] then 0
    else if SignBit(b) then 0 - FromLE(WithoutSign(b))
    else FromLE(WithoutSign(b))
  }

  lemma SignIsRemovable(m: Bytes, neg: bool)
    requires |m| > 0
    ensures SignBit(WithSign(m, neg)) == neg
    ensures WithoutSign(WithSign(m, neg)) == if m[|m| - 1] >= 0x80 then m + [0] else m
  {
    var r, k := WithSign(m, neg), |m| - 1;
    if m[k] >= 0x80 {
      assert r == m + [if neg then 0x80 else 0x00];
    }
  }

  lemma {:induction false} FromLEAppendZero(b: Bytes)
    ensures FromLE(b + [0]) == FromLE(b)
  {
    if b == [] {
      assert b + [0] == [0];
    } else {
      assert (b + [0])[1..] == b[1..] + [0];
      FromLEAppendZero(b[1..]);
    }
  }

  lemma ScriptNumRoundTrip(i: int)
    ensures DecodeNum(ScriptNum(i)) == i
  {
    if i != 0 {
      var n := if i < 0 then -i else i;
      MagnitudeDigits(n);
      SignIsRemovable(Magnitude(n), i < 0);
      FromLEAppendZero(Magnitude(n));
    }
  }

  /** No script number is written as the single zero byte. */
  lemma ScriptNumIsNotZeroByte(i: int)
    ensures ScriptNum(i) != [0]
  {
    ScriptNumRoundTrip(i);
    assert DecodeNum([0]) == 0 by {
      assert WithoutSign([0]) == [0] && FromLE([0]) == 0;
    }
  }

  // ---- Pushing data ----

  function OpPush(n: nat): (b: Bytes)
    requires n < 0x1_0000_0000
    ensures |b| > 0
  {
    if n < 0x4c then [n]
    else if n <= 0xff then [OP_PUSHDATA1] + ToLE(n, 1)
    else if n <= 0xffff then [OP_PUSHDATA2] + ToLE(n, 2)
    else [OP_PUSHDATA4] + ToLE(n, 4)
  }

  /** The data that one of the small-integer opcodes pushes. */
  predicate IsSmallPush(d: Bytes)
  {
    |d| == 0 || (|d| == 1 && (d[0] <= 16 || d[0] == 0x81))
  }

  function PushScript(d: Bytes): (b: Bytes)
    requires |d| < 0x1_0000_0000
    ensures |b| > 0
    ensures !IsSmallPush(d) ==> b == OpPush(|d|) + d
  {
    if |d| == 0 || (|d| == 1 && d[0] == 0) then [OP_0]
    else if |d| == 1 && d[0] <= 16 then [0x50 + d[0]]
    else if |d| == 1 && d[0] == 0x81 then [OP_1NEGATE]
    else OpPush(|d|) + d
  }

  // ---- Building ----

  /** A script item: an opcode, an integer, raw data, or a template slot that has to be filled. */
  datatype Item = Op(code: byte) | Num(n: int) | Data(d: Bytes) | Slot

  const MAX_PUSH := 0x1_0000_0000

  /** The bytes of one item; an unfilled slot raises, and so does data whose length has no push opcode. */
  function ItemBytes(it: Item): Result<Bytes>
  {
    match it
    case Op(code) => Ok([code])
    case Slot => Err
    case _ => if |PushedData(it)| < MAX_PUSH then Ok(PushScript(PushedData(it))) else Err
  }

  /** The data an integer or data item pushes. */
  function PushedData(it: Item): Bytes
    requires it.Num? || it.Data?
  {
    match it
    case Num(n) => ScriptNum(n)
    case Data(d) => d
  }

  /** The items with the given positions replaced. */
  function Fill(items: seq<Item>, values: map<nat, Item>): (r: seq<Item>)
    ensures |r| == |items|
    ensures forall i :: 0 <= i < |items| ==> r[i] == if i in values then values[i] else items[i]
  {
    seq(|items|, i requires 0 <= i < |items| => if i in values then values[i] else items[i])
  }

  function Build(items: seq<Item>): Result<Bytes>
  {
    if items == [] then Ok([])
    else match ItemBytes(items[0]) {
      case Err => Err
      case Ok(b) => Prepend(b, Build(items[1..]))
    }
  }

  method ConstructScript(items: seq<Item>, values: map<nat, Item>) returns (r: Result<Bytes>)
    ensures r == Build(Fill(items, values))
  {
    ghost var filled := Fill(items, values);
    var script: Bytes := [];
    PrependEmpty(Build(filled));
    assert filled[0..] == filled;
    for i := 0 to |items|
      invariant Build(filled) == Prepend(script, Build(filled[i..]))
    {
      var item := if i in values then values[i] else items[i];
      assert filled[i..][0] == item && filled[i..][1..] == filled[i + 1..];
      match ItemBytes(item) {
        case Err =>
          return Err;
        case Ok(b) =>
          PrependAppend(script, b, Build(filled[i + 1..]));
          script := script + b;
      }
    }
    assert script + [] == script;
    return Ok(script);
  }

  // ---- Reading: script_GetOp ----

  /** An opcode, its pushed data if it is a push, and the index behind it. */
  datatype GotOp = GotOp(code: byte, data: Option<Bytes>, next: nat)

  /** The length field of a push opcode at s[i-1]: the size and where the data starts. */
  function PushSize(s: Bytes, code: byte, i: nat): Result<(nat, nat)>
    requires i <= |s|
  {
    if code == OP_PUSHDATA1 then
      if i < |s| then Ok((s[i], i + 1)) else Err
    else if code == OP_PUSHDATA2 then
      if i + 2 <= |s| then Ok((FromLE(s[i..i + 2]), i + 2)) else Err
    else if code == OP_PUSHDATA4 then
      if i + 4 <= |s| then Ok((FromLE(s[i..i + 4]), i + 4)) else Err
    else Ok((code, i))
  }

  /** s[i:j] with Python's clipping. */
  function Slice(s: Bytes, i: nat, j: nat): Bytes
    requires i <= |s| && i <= j
  {
    if j <= |s| then s[i..j] else s[i..]
  }

  function GetOp(s: Bytes, i: nat): (r: Result<GotOp>)
    requires i < |s|
    ensures r.Ok? ==> r.value.next > i
  {
    var code := s[i];
    if code <= OP_PUSHDATA4 then
      match PushSize(s, code, i + 1)
      case Err => Err
      case Ok((n, at)) => Ok(GotOp(code, Some(Slice(s, at, at + n)), at + n))
    else Ok(GotOp(code, None, i + 1))
  }

  function GetOps(s: Bytes, i: nat): Result<seq<GotOp>>
    decreases if i <= |s| then |s| - i else 0
  {
    if i >= |s| then Ok([])
    else match GetOp(s, i) {
      case Err => Err
      case Ok(op) => Prepend([op], GetOps(s, op.next))
    }
  }

  /** One turn of the reader's loop. */
  method ReadOp(s: Bytes, start: nat) returns (r: Result<GotOp>)
    requires start < |s|
    ensures r == GetOp(s, start)
  {
    var data: Option<Bytes> := None;
    var code := s[start];
    var i := start + 1;
    if code <= OP_PUSHDATA4 {
      var size: nat := code;
      if code == OP_PUSHDATA1 {
        if i >= |s| { return Err; }
        size := s[i];
        i := i + 1;
      } else if code == OP_PUSHDATA2 {
        if i + 2 > |s| { return Err; }
        size := FromLE(s[i..i + 2]);
        i := i + 2;
      } else if code == OP_PUSHDATA4 {
        if i + 4 > |s| { return Err; }
        size := FromLE(s[i..i + 4]);
        i := i + 4;
      }
      data := Some(Slice(s, i, i + size));
      i := i + size;
    }
    return Ok(GotOp(code, data, i));
  }

  method ScriptGetOp(s: Bytes) returns (r: Result<seq<GotOp>>)
    ensures r == GetOps(s, 0)
  {
    var ops: seq<GotOp> := [];
    var i := 0;
    PrependEmpty(GetOps(s, 0));
    while i < |s|
      invariant GetOps(s, 0) == Prepend(ops, GetOps(s, i))
      decreases if i <= |s| then |s| - i else 0
    {
      var op := ReadOp(s, i);
      match op {
        case Err =>
          return Err;
        case Ok(got) =>
          PrependAppend(ops, [got], GetOps(s, got.next));
          ops := ops + [got];
          i := got.next;
      }
    }
    assert ops + [] == ops;
    return Ok(ops);
  }

  /** What script_GetOp yields for a pushed item. */
  function PushOp(d: Bytes): GotOp
    requires |d| < 0x1_0000_0000
  {
    var b := PushScript(d);
    GotOp(b[0],
          if b[0] > OP_PUSHDATA4 then None else if b == [OP_0] then Some([]) else Some(d),
          |b|)
  }

  lemma PushSizeOfOpPush(s: Bytes, i: nat, n: nat)
    requires n < 0x1_0000_0000 && At(s, i, OpPush(n))
    ensures s[i] == OpPush(n)[0] <= OP_PUSHDATA4
    ensures PushSize(s, s[i], i + 1) == Ok((n, i + |OpPush(n)|))
  {
    Pow256Values();
    var b := OpPush(n);
    assert s[i] == b[0] by { assert s[i..i + |b|][0] == s[i]; }
    if n >= 0x4c {
      var k := if n <= 0xff then 1 else if n <= 0xffff then 2 else 4;
      AtSplit(s, i, [b[0]], ToLE(n, k));
      FromLEToLE(n, k);
      if k == 1 {
        assert s[i + 1..i + 2] == [s[i + 1]];
        assert FromLE([s[i + 1]]) == s[i + 1];
      }
    }
  }

  /** The reader undoes push_script wherever the push stands, up to the zero byte, which reads as an empty push. */
  lemma GetOpOfPush(s: Bytes, i: nat, d: Bytes)
    requires |d| < 0x1_0000_0000 && At(s, i, PushScript(d))
    ensures i < |s| && GetOp(s, i) == Ok(PushOp(d).(next := i + |PushScript(d)|))
    ensures PushOp(d).data == (if PushOp(d).code > OP_PUSHDATA4 then None else if d == [0] then Some([]) else Some(d))
  {
    var b := PushScript(d);
    if IsSmallPush(d) {
      assert s[i..i + 1] == [s[i]] == b;
      assert Slice(s, i + 1, i + 1) == [];
    } else {
      var n := |d|;
      AtSplit(s, i, OpPush(n), d);
      PushSizeOfOpPush(s, i, n);
      var at := i + |OpPush(n)|;
      assert Slice(s, at, at + n) == d;
      assert b[0] == OpPush(n)[0] == s[i] && at + n == i + |b|;
      assert |d| == 1 ==> d != [0];
    }
  }

  /** The entry script_GetOp yields for an item whose bytes start at `at`. */
  function ItemOp(it: Item, at: nat): GotOp
    requires ItemBytes(it).Ok?
  {
    if it.Op? then GotOp(it.code, None, at + 1)
    else PushOp(PushedData(it)).(next := at + |PushScript(PushedData(it))|)
  }

  predicate Readable(it: Item)
  {
    ItemBytes(it).Ok? && (it.Op? ==> it.code > OP_PUSHDATA4)
  }

  predicate AllReadable(items: seq<Item>)
  {
    items == [] || (Readable(items[0]) && AllReadable(items[1..]))
  }

  function ItemOps(items: seq<Item>, at: nat): (r: seq<GotOp>)
    requires AllReadable(items)
    ensures |r| == |items|
  {
    if items == [] then [] else
      var op := ItemOp(items[0], at);
      [op] + ItemOps(items[1..], op.next)
  }

  lemma GetOpOfCode(s: Bytes, at: nat, c: byte)
    requires c > OP_PUSHDATA4 && At(s, at, [c])
    ensures at < |s| && GetOp(s, at) == Ok(GotOp(c, None, at + 1))
  {
    assert s[at] == s[at..at + 1][0];
  }

  lemma GetOpOfData(s: Bytes, at: nat, d: Bytes)
    requires |d| < MAX_PUSH && At(s, at, PushScript(d))
    ensures at < |s| && GetOp(s, at) == Ok(PushOp(d).(next := at + |PushScript(d)|))
  {
    GetOpOfPush(s, at, d);
  }

  lemma GetOpOfItem(s: Bytes, at: nat, it: Item)
    requires Readable(it) && At(s, at, ItemBytes(it).value)
    ensures at < |s| && GetOp(s, at) == Ok(ItemOp(it, at))
    ensures ItemOp(it, at).next == at + |ItemBytes(it).value|
  {
    hide GetOp, PushOp;
    if it.Op? {
      GetOpOfCode(s, at, it.code);
    } else {
      GetOpOfData(s, at, PushedData(it));
    }
  }

  lemma GetOpsOfItem(s: Bytes, at: nat, it: Item, rest: seq<GotOp>)
    requires Readable(it) && At(s, at, ItemBytes(it).value)
    requires GetOps(s, at + |ItemBytes(it).value|) == Ok(rest)
    ensures GetOps(s, at) == Ok([ItemOp(it, at)] + rest)
  {
    hide GetOp, ItemOp, ItemBytes;
    GetOpOfItem(s, at, it);
  }

  /** The reader reads back the items a script was built from, one entry per item. */
  lemma {:induction false} GetOpsOfBuild(s: Bytes, at: nat, items: seq<Item>)
    requires AllReadable(items)
    requires Build(items).Ok? && At(s, at, Build(items).value) && at + |Build(items).value| == |s|
    ensures GetOps(s, at) == Ok(ItemOps(items, at))
    decreases |items|
  {
    hide GetOps, GetOp, ItemOp, ItemBytes;
    if items == [] {
      GetOpsAtEnd(s);
    } else {
      var b, rest := ItemBytes(items[0]).value, Build(items[1..]).value;
      AtSplit(s, at, b, rest);
      GetOpsOfBuild(s, at + |b|, items[1..]);
      GetOpOfItem(s, at, items[0]);
      GetOpsOfItem(s, at, items[0], ItemOps(items[1..], at + |b|));
    }
  }

  lemma GetOpsAtEnd(s: Bytes)
    ensures GetOps(s, |s|) == Ok([])
  {
  }

  // ---- match_script_against_template ----

  /** A template entry: a fixed opcode, a push of any length, of one length, or of a public key. */
  datatype Pattern = Exactly(code: byte) | AnyPush | PushOfLength(n: byte) | PubkeyPush
  {
    predicate Accepts(c: byte)
    {
      match this
      case Exactly(code) => c == code
      case AnyPush => c <= OP_PUSHDATA4
      case PushOfLength(n) => c == n
      case PubkeyPush => c == 33 || c == 65
    }
  }

  predicate Matches(ops: seq<GotOp>, template: seq<Pattern>)
  {
    && |ops| == |template|
    && forall i :: 0 <= i < |ops| ==> template[i].Accepts(ops[i].code)
  }
}
