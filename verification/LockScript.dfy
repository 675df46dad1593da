/** The swap's lock script: the template as the swap manager fills it, a Script interpreter for the
    opcodes it uses, and exactly which witnesses spend it. */
module LockScript {
  import opened Common
  import opened Wire
  import opened Script

  /** WITNESS_TEMPLATE_REVERSE_SWAP */
  const TEMPLATE: seq<Item> := [
    Op(OP_SIZE), Slot, Op(OP_EQUAL),
    Op(OP_IF),
    Op(OP_HASH160), Slot, Op(OP_EQUALVERIFY), Slot,
    Op(OP_ELSE),
    Op(OP_DROP), Slot, Op(OP_CHECKLOCKTIMEVERIFY), Op(OP_DROP), Slot,
    Op(OP_ENDIF),
    Op(OP_CHECKSIG)
  ]

  /** What the template is filled with: {1: 32, 5: ripemd(payment_hash), 7: claim key, 10: locktime, 13: refund key}. */
  datatype Lock = Lock(hash: Bytes, claimKey: Bytes, locktime: int, refundKey: Bytes)
  {
    predicate Valid()
    {
      |hash| == 20 && |claimKey| == 33 && |refundKey| == 33 && |ScriptNum(locktime)| <= 520
    }

    /** The template with its slots filled. */
    function Items(): seq<Item>
    {
      Fill(TEMPLATE, Values())
    }

    function Values(): map<nat, Item>
    {
      map[1 := Num(32), 5 := Data(hash), 7 := Data(claimKey), 10 := Num(locktime), 13 := Data(refundKey)]
    }
  }

  function LockBytes(l: Lock): Result<Bytes>
  {
    Build(l.Items())
  }

  lemma ScriptNum32()
    ensures ScriptNum(32) == [32]
  {
    assert Magnitude(32) == [32] + Magnitude(0);
  }

  // ---- Instructions ----

  datatype Instr = Push(d: Bytes) | Code(code: byte)

  /** The next instruction of a script as consensus reads it: its length, or a failure on a truncated push. */
  function NextInstr(s: Bytes): Option<(Instr, nat)>
    requires s != []
  {
    var code := s[0];
    if code <= OP_PUSHDATA4 then
      match PushSize(s, code, 1)
      case Err => None
      case Ok((n, at)) => if at + n <= |s| then Some((Push(s[at..at + n]), at + n)) else None
    else if code == OP_1NEGATE then Some((Push([0x81]), 1))
    else if 0x51 <= code <= 0x60 then Some((Push([code - 0x50]), 1))
    else Some((Code(code), 1))
  }

  function Decode(s: Bytes): Option<seq<Instr>>
    decreases |s|
  {
    if s == [] then Some([])
    else match NextInstr(s) {
      case None => None
      case Some((i, n)) =>
        if n == 0 || n > |s| then None
        else match Decode(s[n..]) {
          case None => None
          case Some(rest) => Some([i] + rest)
        }
    }
  }

  // ---- The machine ----

  /** What a transaction input offers to its script. */
  datatype Context = Context(locktime: nat, sequence: nat, hash160: Bytes -> Bytes, checkSig: (Bytes, Bytes) -> bool)

  /** The stack, top last, and the branches entered. */
  datatype Machine = Machine(stack: seq<Bytes>, conds: seq<bool>)
  {
    predicate Executing() { forall i :: 0 <= i < |conds| ==> conds[i] }

    function Top(): Bytes requires |stack| > 0 { stack[|stack| - 1] }

    function Popped(): seq<Bytes> requires |stack| > 0 { stack[..|stack| - 1] }
  }

  const MAX_ELEMENT := 520
  const LOCKTIME_THRESHOLD := 500_000_000
  const SEQUENCE_FINAL := 0xffff_ffff

  /** CastToBool: any non-zero byte, except that the last one may be a lone sign bit. */
  predicate Truthy(b: Bytes)
  {
    exists i :: 0 <= i < |b| && b[i] != 0 && !(i == |b| - 1 && b[i] == 0x80)
  }

  function FromBool(b: bool): Bytes { if b then [1] else [] }

  /** OP_CHECKLOCKTIMEVERIFY on a decoded operand (BIP-65). */
  predicate LocktimePasses(n: int, ctx: Context)
  {
    && n >= 0
    && (n < LOCKTIME_THRESHOLD <==> ctx.locktime < LOCKTIME_THRESHOLD)
    && n <= ctx.locktime
    && ctx.sequence != SEQUENCE_FINAL
  }

  predicate CltvPasses(operand: Bytes, ctx: Context)
  {
    |operand| <= 5 && LocktimePasses(DecodeNum(operand), ctx)
  }

  function Step(i: Instr, m: Machine, ctx: Context): Option<Machine>
  {
    var n := |m.stack|;
    match i
    case Push(d) =>
      if |d| > MAX_ELEMENT then None
      else if m.Executing() then Some(m.(stack := m.stack + [d]))
      else Some(m)
    case Code(c) =>
      if c == OP_IF then
        if !m.Executing() then Some(m.(conds := m.conds + [false]))
        else if n == 0 then None
        else Some(Machine(m.Popped(), m.conds + [Truthy(m.Top())]))
      else if c == OP_ELSE then
        if m.conds == [] then None else Some(m.(conds := m.conds[|m.conds| - 1 := !m.conds[|m.conds| - 1]]))
      else if c == OP_ENDIF then
        if m.conds == [] then None else Some(m.(conds := m.conds[..|m.conds| - 1]))
      else if !m.Executing() then Some(m)
      else StepPlain(c, m, ctx)
  }

  /** The opcodes of the template that only work on the stack; any other opcode fails. */
  function StepPlain(c: byte, m: Machine, ctx: Context): Option<Machine>
  {
    var n := |m.stack|;
    if n == 0 then None
    else if c == OP_SIZE then Some(m.(stack := m.stack + [ScriptNum(|m.Top()|)]))
    else if c == OP_DROP then Some(m.(stack := m.Popped()))
    else if c == OP_HASH160 then Some(m.(stack := m.Popped() + [ctx.hash160(m.Top())]))
    else if c == OP_CHECKLOCKTIMEVERIFY then if CltvPasses(m.Top(), ctx) then Some(m) else None
    else if n < 2 then None
    else
      var a, b, rest := m.stack[n - 2], m.stack[n - 1], m.stack[..n - 2];
      if c == OP_EQUAL then Some(m.(stack := rest + [FromBool(a == b)]))
      else if c == OP_EQUALVERIFY then if a == b then Some(m.(stack := rest)) else None
      else if c == OP_CHECKSIG then Some(m.(stack := rest + [FromBool(ctx.checkSig(a, b))]))
      else None
  }

  function Run(prog: seq<Instr>, m: Machine, ctx: Context): Option<Machine>
  {
    if prog == [] then Some(m)
    else match Step(prog[0], m, ctx) {
      case None => None
      case Some(m') => Run(prog[1..], m', ctx)
    }
  }

  /** Whether a P2WSH witness (without the script itself) spends: all branches closed and one true element left. */
  predicate Spends(script: Bytes, wit: seq<Bytes>, ctx: Context)
  {
    && (forall i :: 0 <= i < |wit| ==> |wit[i]| <= MAX_ELEMENT)
    && match Decode(script) {
         case None => false
         case Some(prog) =>
           match Run(prog, Machine(wit, []), ctx) {
             case None => false
             case Some(m) => m.conds == [] && |m.stack| == 1 && Truthy(m.Top())
           }
       }
  }

  // ---- The filled template, decoded ----

  lemma NextInstrOfPush(d: Bytes, rest: Bytes)
    requires |d| < 0x1_0000_0000 && d != [0]
    ensures var s := PushScript(d) + rest;
            s != [] && NextInstr(s) == Some((Push(d), |PushScript(d)|))
  {
    var b := PushScript(d);
    var s := b + rest;
    assert s[..|b|] == b;
    if IsSmallPush(d) {
      assert b[0] == s[0];
      if d == [] {
        assert PushSize(s, OP_0, 1) == Ok((0, 1)) && s[1..1] == d;
      } else {
        assert d == [d[0]];
      }
    } else {
      var n := |d|;
      var at := |OpPush(n)|;
      assert At(s, 0, OpPush(n) + d);
      AtSplit(s, 0, OpPush(n), d);
      PushSizeOfOpPush(s, 0, n);
      assert s[at..at + n] == d;
    }
  }

  lemma DecodePush(d: Bytes, rest: Bytes)
    requires |d| < 0x1_0000_0000 && d != [0] && Decode(rest).Some?
    ensures Decode(PushScript(d) + rest) == Some([Push(d)] + Decode(rest).value)
  {
    NextInstrOfPush(d, rest);
    assert (PushScript(d) + rest)[|PushScript(d)|..] == rest;
  }

  predicate PlainCode(c: byte) { c > 0x60 }

  lemma DecodeCode(c: byte, rest: Bytes)
    requires PlainCode(c) && Decode(rest).Some?
    ensures Decode([c] + rest) == Some([Code(c)] + Decode(rest).value)
  {
    assert ([c] + rest)[1..] == rest;
  }

  predicate Decodable(it: Item)
  {
    match it
    case Op(c) => PlainCode(c)
    case Num(n) => |ScriptNum(n)| < MAX_PUSH
    case Data(d) => |d| < MAX_PUSH && d != [0]
    case Slot => false
  }

  predicate AllDecodable(items: seq<Item>)
  {
    items == [] || (Decodable(items[0]) && AllDecodable(items[1..]))
  }

  function ItemInstr(it: Item): Instr
    requires Decodable(it)
  {
    match it
    case Op(c) => Code(c)
    case Num(n) => Push(ScriptNum(n))
    case Data(d) => Push(d)
  }

  function Instrs(items: seq<Item>): seq<Instr>
    requires AllDecodable(items)
  {
    if items == [] then [] else [ItemInstr(items[0])] + Instrs(items[1..])
  }

  lemma DecodeItem(it: Item, rest: Bytes)
    requires Decodable(it) && Decode(rest).Some?
    ensures ItemBytes(it).Ok?
    ensures Decode(ItemBytes(it).value + rest) == Some([ItemInstr(it)] + Decode(rest).value)
  {
    match it {
      case Op(c) => DecodeCode(c, rest);
      case Num(n) => ScriptNumIsNotZeroByte(n); DecodePush(ScriptNum(n), rest);
      case Data(d) => DecodePush(d, rest);
    }
  }

  /** The interpreter reads back exactly the items a script was built from. */
  lemma {:induction false} DecodeOfBuild(items: seq<Item>)
    requires AllDecodable(items)
    ensures Build(items).Ok?
    ensures Decode(Build(items).value) == Some(Instrs(items))
  {
    if items != [] {
      DecodeOfBuild(items[1..]);
      DecodeItem(items[0], Build(items[1..]).value);
    }
  }

  /** The program of a lock. */
  function Program(l: Lock): seq<Instr>
  {
    Prologue() + ClaimBranch(l) + [Code(OP_ELSE)] + RefundBranch(l) + [Code(OP_ENDIF), Code(OP_CHECKSIG)]
  }

  function Prologue(): seq<Instr> { [Code(OP_SIZE), Push([32]), Code(OP_EQUAL), Code(OP_IF)] }

  function ClaimBranch(l: Lock): seq<Instr>
  {
    [Code(OP_HASH160), Push(l.hash), Code(OP_EQUALVERIFY), Push(l.claimKey)]
  }

  function RefundBranch(l: Lock): seq<Instr>
  {
    [Code(OP_DROP), Push(ScriptNum(l.locktime)), Code(OP_CHECKLOCKTIMEVERIFY), Code(OP_DROP), Push(l.refundKey)]
  }

  lemma LockItems(l: Lock)
    ensures l.Items() == [
      Op(OP_SIZE), Num(32), Op(OP_EQUAL), Op(OP_IF),
      Op(OP_HASH160), Data(l.hash), Op(OP_EQUALVERIFY), Data(l.claimKey), Op(OP_ELSE),
      Op(OP_DROP), Num(l.locktime), Op(OP_CHECKLOCKTIMEVERIFY), Op(OP_DROP), Data(l.refundKey),
      Op(OP_ENDIF), Op(OP_CHECKSIG)]
  {
  }

  lemma InstrsAppend(a: seq<Item>, b: seq<Item>)
    requires AllDecodable(a) && AllDecodable(b)
    ensures AllDecodable(a + b) && Instrs(a + b) == Instrs(a) + Instrs(b)
  {
    if a == [] {
      assert a + b == b;
    } else {
      assert (a + b)[1..] == a[1..] + b;
      InstrsAppend(a[1..], b);
    }
  }

  lemma Instrs4(a: Item, b: Item, c: Item, d: Item)
    requires Decodable(a) && Decodable(b) && Decodable(c) && Decodable(d)
    ensures AllDecodable([a, b, c, d])
    ensures Instrs([a, b, c, d]) == [ItemInstr(a), ItemInstr(b), ItemInstr(c), ItemInstr(d)]
  {
    forall x: Item | Decodable(x) ensures AllDecodable([x]) && Instrs([x]) == [ItemInstr(x)] {
      assert [x][1..] == [];
    }
    InstrsAppend([c], [d]);
    InstrsAppend([b], [c] + [d]);
    InstrsAppend([a], [b] + ([c] + [d]));
    assert [a] + ([b] + ([c] + [d])) == [a, b, c, d];
  }

  lemma LockInstrs(l: Lock)
    requires l.Valid()
    ensures AllDecodable(l.Items()) && Instrs(l.Items()) == Program(l)
  {
    ScriptNum32();
    LockItems(l);
    var a: seq<Item> := [Op(OP_SIZE), Num(32), Op(OP_EQUAL), Op(OP_IF)];
    var b: seq<Item> := [Op(OP_HASH160), Data(l.hash), Op(OP_EQUALVERIFY), Data(l.claimKey)];
    var c: seq<Item> := [Op(OP_ELSE), Op(OP_DROP), Num(l.locktime), Op(OP_CHECKLOCKTIMEVERIFY)];
    var d: seq<Item> := [Op(OP_DROP), Data(l.refundKey), Op(OP_ENDIF), Op(OP_CHECKSIG)];
    Instrs4(a[0], a[1], a[2], a[3]);
    Instrs4(b[0], b[1], b[2], b[3]);
    Instrs4(c[0], c[1], c[2], c[3]);
    Instrs4(d[0], d[1], d[2], d[3]);
    InstrsAppend(c, d);
    InstrsAppend(b, c + d);
    InstrsAppend(a, b + (c + d));
    assert l.Items() == a + (b + (c + d));
  }

  lemma LockDecodes(l: Lock)
    requires l.Valid()
    ensures LockBytes(l).Ok? && Decode(LockBytes(l).value) == Some(Program(l))
  {
    LockInstrs(l);
    DecodeOfBuild(l.Items());
  }

  // ---- Execution, block by block ----

  lemma {:induction false} RunAppend(a: seq<Instr>, b: seq<Instr>, m: Machine, ctx: Context)
    ensures Run(a + b, m, ctx) == match Run(a, m, ctx) { case None => None case Some(m') => Run(b, m', ctx) }
  {
    if a == [] {
      assert a + b == b;
    } else {
      assert (a + b)[1..] == a[1..] + b;
      match Step(a[0], m, ctx) {
        case None =>
        case Some(m') => RunAppend(a[1..], b, m', ctx);
      }
    }
  }

  function Then(r: Option<Machine>, i: Instr, ctx: Context): Option<Machine>
  {
    match r
    case None => None
    case Some(m) => Step(i, m, ctx)
  }

  lemma RunSnoc(a: seq<Instr>, i: Instr, m: Machine, ctx: Context)
    ensures Run(a + [i], m, ctx) == Then(Run(a, m, ctx), i, ctx)
  {
    RunAppend(a, [i], m, ctx);
    assert [i][1..] == [];
  }

  lemma Run4(a: Instr, b: Instr, c: Instr, d: Instr, m: Machine, ctx: Context)
    ensures Run([a, b, c, d], m, ctx) == Then(Then(Then(Step(a, m, ctx), b, ctx), c, ctx), d, ctx)
  {
    RunSnoc([], a, m, ctx);
    RunSnoc([a], b, m, ctx);
    RunSnoc([a, b], c, m, ctx);
    RunSnoc([a, b, c], d, m, ctx);
    assert [] + [a] == [a] && [a] + [b] == [a, b] && [a, b] + [c] == [a, b, c] && [a, b, c] + [d] == [a, b, c, d];
  }

  lemma TruthyFromBool(b: bool)
    ensures Truthy(FromBool(b)) == b
  {
    if b {
      assert FromBool(b)[0] != 0;
    }
  }

  lemma SizeIs32(n: nat)
    requires n <= MAX_ELEMENT
    ensures ScriptNum(n) == [32] <==> n == 32
  {
    ScriptNum32();
    ScriptNumRoundTrip(n);
    ScriptNumRoundTrip(32);
  }

  /** The prologue enters the claim branch exactly when the top element has 32 bytes. */
  lemma RunPrologue(base: seq<Bytes>, item: Bytes, ctx: Context)
    requires |item| <= MAX_ELEMENT
    ensures Run(Prologue(), Machine(base + [item], []), ctx) ==
            Some(Machine(base + [item], [|item| == 32]))
  {
    SizeIs32(|item|);
    var size, w := ScriptNum(|item|), base + [item];
    Run4(Code(OP_SIZE), Push([32]), Code(OP_EQUAL), Code(OP_IF), Machine(w, []), ctx);
    var m1 := Machine(w + [size], []);
    var m2 := Machine(w + [size] + [[32]], []);
    var m3 := Machine(w + [FromBool(size == [32])], []);
    assert Step(Code(OP_SIZE), Machine(w, []), ctx) == Some(m1);
    assert Step(Push([32]), m1, ctx) == Some(m2);
    assert m2.stack[..|m2.stack| - 2] == w;
    assert Step(Code(OP_EQUAL), m2, ctx) == Some(m3);
    assert m3.Popped() == w;
    TruthyFromBool(size == [32]);
    assert Step(Code(OP_IF), m3, ctx) == Some(Machine(w, [] + [size == [32]]));
    assert [] + [size == [32]] == [|item| == 32];
  }

  lemma RunClaim(l: Lock, base: seq<Bytes>, item: Bytes, ctx: Context)
    requires l.Valid()
    ensures Run(ClaimBranch(l), Machine(base + [item], [true]), ctx) ==
            if ctx.hash160(item) == l.hash then Some(Machine(base + [l.claimKey], [true])) else None
  {
    var h := ctx.hash160(item);
    Run4(Code(OP_HASH160), Push(l.hash), Code(OP_EQUALVERIFY), Push(l.claimKey), Machine(base + [item], [true]), ctx);
    assert Machine(base + [item], [true]).Popped() == base;
    var m2 := Machine(base + [h] + [l.hash], [true]);
    assert m2.stack[..|m2.stack| - 2] == base;
  }

  lemma RunRefund(l: Lock, base: seq<Bytes>, item: Bytes, ctx: Context)
    requires l.Valid()
    ensures Run(RefundBranch(l), Machine(base + [item], [true]), ctx) ==
            if CltvPasses(ScriptNum(l.locktime), ctx) then Some(Machine(base + [l.refundKey], [true])) else None
  {
    var n, m := ScriptNum(l.locktime), Machine(base + [item], [true]);
    var first: seq<Instr> := [Code(OP_DROP), Push(n), Code(OP_CHECKLOCKTIMEVERIFY), Code(OP_DROP)];
    assert RefundBranch(l) == first + [Push(l.refundKey)];
    RunAppend(first, [Push(l.refundKey)], m, ctx);
    Run4(Code(OP_DROP), Push(n), Code(OP_CHECKLOCKTIMEVERIFY), Code(OP_DROP), m, ctx);
    assert m.Popped() == base;
    assert Machine(base + [n], [true]).Popped() == base;
    var m' := Machine(base, [true]);
    assert Step(Push(l.refundKey), m', ctx) == Some(Machine(base + [l.refundKey], [true]));
    assert [Push(l.refundKey)][1..] == [];
  }

  /** A branch that is not taken leaves the machine alone. */
  lemma {:induction false} RunSkipped(prog: seq<Instr>, m: Machine, ctx: Context)
    requires !m.Executing()
    requires forall i :: 0 <= i < |prog| ==>
               match prog[i] { case Push(d) => |d| <= MAX_ELEMENT case Code(c) => c !in {OP_IF, OP_ELSE, OP_ENDIF} }
    ensures Run(prog, m, ctx) == Some(m)
  {
    if prog != [] {
      assert Step(prog[0], m, ctx) == Some(m);
      RunSkipped(prog[1..], m, ctx);
    }
  }

  /** Else-less branches, both ways: what the if/else part does to any stack. */
  lemma RunBranches(l: Lock, base: seq<Bytes>, item: Bytes, ctx: Context)
    requires l.Valid() && |item| <= MAX_ELEMENT
    ensures Run(ClaimBranch(l) + [Code(OP_ELSE)] + RefundBranch(l), Machine(base + [item], [|item| == 32]), ctx) ==
            if |item| == 32 then
              if ctx.hash160(item) == l.hash then Some(Machine(base + [l.claimKey], [false])) else None
            else
              if CltvPasses(ScriptNum(l.locktime), ctx) then Some(Machine(base + [l.refundKey], [true])) else None
  {
    var w, taken := base + [item], |item| == 32;
    var e: seq<Instr> := [Code(OP_ELSE)];
    RunAppend(ClaimBranch(l) + e, RefundBranch(l), Machine(w, [taken]), ctx);
    RunAppend(ClaimBranch(l), e, Machine(w, [taken]), ctx);
    assert e[1..] == [];
    assert [taken][0 := !taken] == [!taken];
    if taken {
      RunClaim(l, base, item, ctx);
      var after := Machine(base + [l.claimKey], [true]);
      assert Run(e, after, ctx) == Some(after.(conds := [true][0 := false]));
      assert !Machine(base + [l.claimKey], [false]).Executing() by {
        assert ![false][0];
      }
      RunSkipped(RefundBranch(l), Machine(base + [l.claimKey], [false]), ctx);
    } else {
      assert !Machine(w, [false]).Executing() by {
        assert ![false][0];
      }
      RunSkipped(ClaimBranch(l), Machine(w, [false]), ctx);
      assert Run(e, Machine(w, [false]), ctx) == Some(Machine(w, [false][0 := true]));
      RunRefund(l, base, item, ctx);
    }
  }

  lemma RunEpilogue(base: seq<Bytes>, key: Bytes, cond: bool, ctx: Context)
    ensures var r := Run([Code(OP_ENDIF), Code(OP_CHECKSIG)], Machine(base + [key], [cond]), ctx);
            if base == [] then r == None
            else r == Some(Machine(base[..|base| - 1] + [FromBool(ctx.checkSig(base[|base| - 1], key))], []))
  {
    var m, m1 := Machine(base + [key], [cond]), Machine(base + [key], []);
    RunSnoc([Code(OP_ENDIF)], Code(OP_CHECKSIG), m, ctx);
    RunSnoc([], Code(OP_ENDIF), m, ctx);
    assert [] + [Code(OP_ENDIF)] == [Code(OP_ENDIF)];
    assert [Code(OP_ENDIF)] + [Code(OP_CHECKSIG)] == [Code(OP_ENDIF), Code(OP_CHECKSIG)];
    assert [cond][..0] == [];
    if base != [] {
      assert m1.stack[|m1.stack| - 2] == base[|base| - 1];
      assert m1.stack[..|m1.stack| - 2] == base[..|base| - 1];
    }
  }

  /** What the whole program does to a non-empty witness stack. */
  lemma RunProgram(l: Lock, base: seq<Bytes>, item: Bytes, ctx: Context)
    requires l.Valid() && |item| <= MAX_ELEMENT
    ensures Run(Program(l), Machine(base + [item], []), ctx) ==
            if base == [] then None
            else
              var sig := base[|base| - 1];
              if |item| == 32 then
                if ctx.hash160(item) == l.hash
                then Some(Machine(base[..|base| - 1] + [FromBool(ctx.checkSig(sig, l.claimKey))], [])) else None
              else
                if CltvPasses(ScriptNum(l.locktime), ctx)
                then Some(Machine(base[..|base| - 1] + [FromBool(ctx.checkSig(sig, l.refundKey))], [])) else None
  {
    var start := Machine(base + [item], []);
    var middle := ClaimBranch(l) + [Code(OP_ELSE)] + RefundBranch(l);
    var last: seq<Instr> := [Code(OP_ENDIF), Code(OP_CHECKSIG)];
    assert Program(l) == (Prologue() + middle) + last;
    RunAppend(Prologue() + middle, last, start, ctx);
    RunAppend(Prologue(), middle, start, ctx);
    RunPrologue(base, item, ctx);
    RunBranches(l, base, item, ctx);
    RunEpilogue(base, if |item| == 32 then l.claimKey else l.refundKey, |item| != 32, ctx);
  }

  // ---- Who can spend ----

  /** The claim: a 32-byte preimage of the lock, and a signature of the claim key. */
  predicate ClaimSpend(l: Lock, wit: seq<Bytes>, ctx: Context)
  {
    && |wit| == 2 && |wit[1]| == 32
    && ctx.hash160(wit[1]) == l.hash
    && ctx.checkSig(wit[0], l.claimKey)
  }

  /** The refund: an element of any other length, a transaction that is late enough, and a signature of the refund
      key. */
  predicate RefundSpend(l: Lock, wit: seq<Bytes>, ctx: Context)
  {
    && |wit| == 2 && |wit[1]| != 32
    && |ScriptNum(l.locktime)| <= 5 && LocktimePasses(l.locktime, ctx)
    && ctx.checkSig(wit[0], l.refundKey)
  }

  /** A witness spends the lockup output if and only if it is a claim or a refund, whatever its length. */
  lemma SpendsIffClaimOrRefund(l: Lock, wit: seq<Bytes>, ctx: Context)
    requires l.Valid()
    ensures LockBytes(l).Ok?
    ensures Spends(LockBytes(l).value, wit, ctx) <==>
            && (forall i :: 0 <= i < |wit| ==> |wit[i]| <= MAX_ELEMENT)
            && (ClaimSpend(l, wit, ctx) || RefundSpend(l, wit, ctx))
  {
    LockDecodes(l);
    var n := |wit|;
    if n == 0 {
      assert Program(l)[0] == Code(OP_SIZE);
      assert Run(Program(l), Machine(wit, []), ctx) == None;
    } else if |wit[n - 1]| <= MAX_ELEMENT {
      var base, item := wit[..n - 1], wit[n - 1];
      assert wit == base + [item];
      RunProgram(l, base, item, ctx);
      ScriptNumRoundTrip(l.locktime);
      TruthyFromBool(true);
      TruthyFromBool(false);
    }
  }

  // ---- The transactions the provider signs ----

  /** sign_tx: the witness without the script; on a refund the second element is the script number 0. */
  function SignedWitness(isReverse: bool, preimage: Bytes, sig: Bytes): seq<Bytes>
  {
    [sig, if isReverse then preimage else ScriptNum(0)]
  }

  /** create_claim_tx: a refund carries the swap's locktime, a claim carries none. */
  function SignedLocktime(isReverse: bool, swapLocktime: nat): nat
  {
    if isReverse then 0 else swapLocktime
  }

  /** set_rbf(True) */
  const RBF_SEQUENCE := 0xffff_fffd

  lemma {:induction false} MagnitudeLength(n: nat, k: nat)
    requires n < Pow256(k)
    ensures |Magnitude(n)| <= k
  {
    if n > 0 {
      MagnitudeLength(n / 256, k - 1);
    }
  }

  /** The claim of a reverse swap spends exactly when the provider holds the claim key; it never counts as a refund. */
  lemma ProviderClaimSpends(l: Lock, preimage: Bytes, sig: Bytes, swapLocktime: nat, ctx: Context)
    requires l.Valid() && |sig| <= MAX_ELEMENT
    requires |preimage| == 32 && ctx.hash160(preimage) == l.hash
    requires ctx.locktime == SignedLocktime(true, swapLocktime)
    ensures LockBytes(l).Ok?
    ensures Spends(LockBytes(l).value, SignedWitness(true, preimage, sig), ctx) <==> ctx.checkSig(sig, l.claimKey)
    ensures !RefundSpend(l, SignedWitness(true, preimage, sig), ctx)
  {
    SpendsIffClaimOrRefund(l, SignedWitness(true, preimage, sig), ctx);
  }

  /** The refund of a normal swap spends exactly when the provider holds the refund key; it reveals nothing
      the claim branch accepts. */
  lemma ProviderRefundSpends(l: Lock, preimage: Bytes, sig: Bytes, ctx: Context)
    requires l.Valid() && |sig| <= MAX_ELEMENT
    requires 0 <= l.locktime < 0x1_0000_0000
    requires ctx.locktime == SignedLocktime(false, l.locktime) && ctx.sequence == RBF_SEQUENCE
    ensures LockBytes(l).Ok?
    ensures Spends(LockBytes(l).value, SignedWitness(false, preimage, sig), ctx) <==> ctx.checkSig(sig, l.refundKey)
    ensures !ClaimSpend(l, SignedWitness(false, preimage, sig), ctx)
  {
    Pow256Values();
    MagnitudeLength(l.locktime, 4);
    SpendsIffClaimOrRefund(l, SignedWitness(false, preimage, sig), ctx);
  }

  /** Before the locktime nobody can take the refund branch. */
  lemma OnlyClaimsBeforeLocktime(l: Lock, wit: seq<Bytes>, ctx: Context)
    requires l.Valid() && ctx.locktime < l.locktime
    ensures LockBytes(l).Ok?
    ensures Spends(LockBytes(l).value, wit, ctx) ==> ClaimSpend(l, wit, ctx)
  {
    SpendsIffClaimOrRefund(l, wit, ctx);
  }

  // ---- Matching the template ----

  const PATTERN: seq<Pattern> := [
    Exactly(OP_SIZE), AnyPush, Exactly(OP_EQUAL),
    Exactly(OP_IF),
    Exactly(OP_HASH160), PushOfLength(20), Exactly(OP_EQUALVERIFY), PubkeyPush,
    Exactly(OP_ELSE),
    Exactly(OP_DROP), AnyPush, Exactly(OP_CHECKLOCKTIMEVERIFY), Exactly(OP_DROP), PubkeyPush,
    Exactly(OP_ENDIF),
    Exactly(OP_CHECKSIG)
  ]

  lemma {:induction false} ItemOpsAt(items: seq<Item>, at: nat, k: nat)
    requires AllReadable(items) && k < |items|
    ensures Readable(items[k]) && ItemOps(items, at)[k].code == ItemOp(items[k], 0).code
  {
    if k > 0 {
      ItemOpsAt(items[1..], ItemOp(items[0], at).next, k - 1);
    }
  }

  lemma DecodableIsReadable(items: seq<Item>)
    requires AllDecodable(items)
    ensures AllReadable(items)
  {
    if items != [] {
      DecodableIsReadable(items[1..]);
    }
  }

  lemma LockItemMatches(l: Lock, k: nat)
    requires l.Valid() && k < 16
    ensures var items := l.Items();
            && Readable(items[k])
            && (PATTERN[k].Accepts(ItemOp(items[k], 0).code) <==>
                k == 10 ==> !IsSmallPush(ScriptNum(l.locktime)) || ScriptNum(l.locktime) == [])
  {
    LockItems(l);
    ScriptNum32();
    ScriptNumIsNotZeroByte(l.locktime);
  }

  /** The built script matches its own template, except when the locktime is so small that it is pushed by one of
      the opcodes OP_1NEGATE and OP_1 to OP_16, which the template's data slot does not accept. */
  lemma LockMatchesTemplate(l: Lock)
    requires l.Valid()
    ensures LockBytes(l).Ok? && GetOps(LockBytes(l).value, 0).Ok?
    ensures Matches(GetOps(LockBytes(l).value, 0).value, PATTERN) <==>
            !IsSmallPush(ScriptNum(l.locktime)) || ScriptNum(l.locktime) == []
  {
    var items := l.Items();
    LockInstrs(l);
    DecodableIsReadable(items);
    DecodeOfBuild(items);
    var s := Build(items).value;
    assert s[0..|s|] == s;
    GetOpsOfBuild(s, 0, items);
    var ops := ItemOps(items, 0);
    forall k: nat | k < 16
      ensures PATTERN[k].Accepts(ops[k].code) <==>
              k == 10 ==> !IsSmallPush(ScriptNum(l.locktime)) || ScriptNum(l.locktime) == []
    {
      ItemOpsAt(items, 0, k);
      LockItemMatches(l, k);
    }
    assert PATTERN[10].Accepts(ops[10].code) <==> !IsSmallPush(ScriptNum(l.locktime)) || ScriptNum(l.locktime) == [];
  }
}
