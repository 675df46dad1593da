/** Streaming RIPEMD-160 over an arbitrary block function: the block buffer, padding, and the cached digest. */
module Ripemd {
  import opened Common
  import opened Wire

  type Word = x: int | 0 <= x < 0x1_0000_0000

  /** The five chaining words. */
  type Chain = s: seq<Word> | |s| == 5 witness [0, 0, 0, 0, 0]

  /** RMD160Transform; it looks at the first 64 bytes of what it is given. */
  type BlockFunction = (Chain, Bytes) -> Chain

  const BLOCK := 64

  const INIT: Chain := [0x67452301, 0xEFCDAB89, 0x98BADCFE, 0x10325476, 0xC3D2E1F0]

  // ---- The hash of a whole message ----

  /** The block function over the complete blocks of the data. */
  function Fold(f: BlockFunction, chain: Chain, data: Bytes): Chain
    decreases |data|
  {
    if |data| < BLOCK then chain else Fold(f, f(chain, data[..BLOCK]), data[BLOCK..])
  }

  function Zeros(n: nat): (z: Bytes)
    ensures |z| == n && forall i :: 0 <= i < n ==> z[i] == 0
  {
    seq(n, _ => 0)
  }

  /** One 0x80 byte, the fewest zeros that leave 8 bytes of the last block, and the length in bits
      (sections 3.1 and 3.2 of RFC 1320). */
  function Padded(msg: Bytes): (p: Bytes)
    ensures |p| % BLOCK == 0 && msg <= p && |p| <= |msg| + 72
  {
    msg + ([0x80] + Zeros((55 - |msg|) % BLOCK)) + ToLE(8 * |msg|, 8)
  }

  /** struct.pack("<5L", *state) */
  function Packed(chain: seq<Word>): Bytes
  {
    if chain == [] then [] else ToLE(chain[0], 4) + Packed(chain[1..])
  }

  function Hash(f: BlockFunction, msg: Bytes): Bytes
  {
    Packed(Fold(f, INIT, Padded(msg)))
  }

  lemma {:induction false} FoldAppend(f: BlockFunction, chain: Chain, a: Bytes, b: Bytes)
    requires |a| % BLOCK == 0
    ensures Fold(f, chain, a + b) == Fold(f, Fold(f, chain, a), b)
    decreases |a|
  {
    if a == [] {
      assert a + b == b;
    } else {
      assert (a + b)[..BLOCK] == a[..BLOCK] && (a + b)[BLOCK..] == a[BLOCK..] + b;
      FoldAppend(f, f(chain, a[..BLOCK]), a[BLOCK..], b);
    }
  }

  // ---- What the bytes of a digest are ----

  /** The j-th byte of a number, least significant first. */
  lemma {:induction false} ToLEDigit(n: nat, k: nat, j: nat)
    requires j < k
    ensures ToLE(n, k)[j] == n / Pow256(j) % 256
  {
    if j > 0 {
      ToLEDigit(n / 256, k - 1, j - 1);
      assert ToLE(n, k)[j] == ToLE(n / 256, k - 1)[j - 1];
      DivideTwice(n, 256, Pow256(j - 1));
    }
  }

  lemma DivideTwice(n: nat, a: nat, b: nat)
    requires a > 0 && b > 0
    ensures a * b > 0 && n / a / b == n / (a * b)
  {
    var q, r := n / a, n % a;
    var u, v := q / b, q % b;
    assert n == a * q + r && q == b * u + v;
    assert a * q == a * (b * u) + a * v;
    assert a * (b * u) == (a * b) * u;
    ScaledRest(a, b, r, v);
    DivisionIs(n, a * b, u, a * v + r);
  }

  lemma ScaledRest(a: nat, b: nat, r: nat, v: nat)
    requires r < a && v < b
    ensures a * v + r < a * b
  {
    assert a * v <= a * (b - 1) == a * b - a;
  }

  /** The words in order, each with its least significant byte first. */
  lemma {:induction false} PackedBytes(chain: seq<Word>)
    ensures |Packed(chain)| == 4 * |chain|
    ensures forall i, j :: 0 <= i < |chain| && 0 <= j < 4 ==> Packed(chain)[4 * i + j] == chain[i] / Pow256(j) % 256
  {
    hide Pow256;
    if chain != [] {
      PackedBytes(chain[1..]);
      forall i, j | 0 <= i < |chain| && 0 <= j < 4
        ensures Packed(chain)[4 * i + j] == chain[i] / Pow256(j) % 256
      {
        if i == 0 {
          ToLEDigit(chain[0], 4, j);
        } else {
          assert Packed(chain)[4 * i + j] == Packed(chain[1..])[4 * (i - 1) + j];
        }
      }
    }
  }

  /** The final chaining words of a message, as bytes. */
  predicate IsPacked(digest: Bytes, chain: seq<Word>)
  {
    |digest| == 4 * |chain|
    && forall i, j :: 0 <= i < |chain| && 0 <= j < 4 ==> digest[4 * i + j] == chain[i] / Pow256(j) % 256
  }

  /** A message with its padding: one 0x80 byte, zeros up to 8 bytes before the end of a block, and no block more
      than it takes; the last 8 bytes are the length in bits, least significant first. */
  predicate IsPadded(msg: Bytes, p: Bytes)
  {
    && |p| % BLOCK == 0 && |msg| + 9 <= |p| < |msg| + 9 + BLOCK && p[..|msg|] == msg && p[|msg|] == 0x80
    && (forall i :: |msg| < i < |p| - 8 ==> p[i] == 0)
    && (forall j :: 0 <= j < 8 ==> p[|p| - 8 + j] == 8 * |msg| / Pow256(j) % 256)
  }

  /** The chaining values of a message: cs[0] is where it starts, and each block leads to the next one. */
  predicate AreChained(f: BlockFunction, data: Bytes, cs: seq<Chain>)
  {
    && |cs| == |data| / BLOCK + 1
    && forall i {:trigger cs[i]} :: 1 <= i < |cs| ==> cs[i] == f(cs[i - 1], data[BLOCK * (i - 1)..BLOCK * i])
  }

  lemma PaddedIsPadded(msg: Bytes)
    ensures IsPadded(msg, Padded(msg))
  {
    hide Pow256;
    var p := Padded(msg);
    forall j | 0 <= j < 8 ensures p[|p| - 8 + j] == 8 * |msg| / Pow256(j) % 256 {
      ToLEDigit(8 * |msg|, 8, j);
    }
  }

  /** Folding ends in the last of the chaining values. */
  lemma {:induction false} FoldIsLast(f: BlockFunction, data: Bytes, cs: seq<Chain>)
    requires AreChained(f, data, cs)
    ensures Fold(f, cs[0], data) == cs[|cs| - 1]
    decreases |data|
  {
    if |data| >= BLOCK {
      assert cs[1] == f(cs[0], data[..BLOCK]);
      var rest := data[BLOCK..];
      forall i | 1 <= i < |cs[1..]| ensures cs[1..][i] == f(cs[1..][i - 1], rest[BLOCK * (i - 1)..BLOCK * i]) {
        assert rest[BLOCK * (i - 1)..BLOCK * i] == data[BLOCK * i..BLOCK * (i + 1)];
        assert cs[i + 1] == f(cs[i], data[BLOCK * i..BLOCK * (i + 1)]);
      }
      FoldIsLast(f, rest, cs[1..]);
    }
  }

  /** The hash of a message, in terms of its padded form and of the chaining values from block to block. */
  lemma HashIs(f: BlockFunction, msg: Bytes, p: Bytes, cs: seq<Chain>)
    requires IsPadded(msg, p) && AreChained(f, p, cs) && cs[0] == INIT
    ensures IsPacked(Hash(f, msg), cs[|cs| - 1])
  {
    PaddedIsPadded(msg);
    PaddedIsUnique(msg, p, Padded(msg));
    FoldIsLast(f, p, cs);
    PackedBytes(cs[|cs| - 1]);
  }

  lemma PaddedIsUnique(msg: Bytes, p: Bytes, q: Bytes)
    requires IsPadded(msg, p) && IsPadded(msg, q)
    ensures p == q
  {
    hide Pow256;
    assert |p| == |q|;
    forall i | 0 <= i < |p| ensures p[i] == q[i] {
      if i < |msg| {
        assert p[i] == p[..|msg|][i] && q[i] == q[..|msg|][i];
      } else if i >= |p| - 8 {
        var j := i - (|p| - 8);
        assert p[|p| - 8 + j] == 8 * |msg| / Pow256(j) % 256 && q[|q| - 8 + j] == 8 * |msg| / Pow256(j) % 256;
      }
    }
  }

  lemma PackedWord(w: Word, rest: seq<Word>, a: byte, b: byte, c: byte, d: byte)
    requires w == a + 0x100 * b + 0x1_0000 * c + 0x100_0000 * d
    ensures Packed([w] + rest) == [a, b, c, d] + Packed(rest)
  {
    assert ([w] + rest)[1..] == rest;
    assert w / 0x100 == b + 0x100 * c + 0x1_0000 * d;
    assert w / 0x100 / 0x100 == c + 0x100 * d;
    assert w / 0x100 / 0x100 / 0x100 == d;
    assert ToLE(d, 1) == [d] + ToLE(0, 0);
    assert ToLE(c + 0x100 * d, 2) == [c] + ToLE(d, 1);
    assert ToLE(b + 0x100 * c + 0x1_0000 * d, 3) == [b] + ToLE(c + 0x100 * d, 2);
    assert ToLE(w, 4) == [a] + ToLE(w / 0x100, 3);
  }

  /** The five words in front of the first block, as the bytes of a digest. */
  lemma InitialBytes()
    ensures Packed(INIT) == [0x01, 0x23, 0x45, 0x67, 0x89, 0xAB, 0xCD, 0xEF, 0xFE, 0xDC,
                             0xBA, 0x98, 0x76, 0x54, 0x32, 0x10, 0xF0, 0xE1, 0xD2, 0xC3]
  {
    hide Packed;
    PackedWord(INIT[0], INIT[1..], 0x01, 0x23, 0x45, 0x67);
    PackedWord(INIT[1], INIT[2..], 0x89, 0xAB, 0xCD, 0xEF);
    PackedWord(INIT[2], INIT[3..], 0xFE, 0xDC, 0xBA, 0x98);
    PackedWord(INIT[3], INIT[4..], 0x76, 0x54, 0x32, 0x10);
    PackedWord(INIT[4], [], 0xF0, 0xE1, 0xD2, 0xC3);
    assert INIT == [INIT[0]] + INIT[1..] && INIT[1..] == [INIT[1]] + INIT[2..] && INIT[2..] == [INIT[2]] + INIT[3..];
    assert INIT[3..] == [INIT[3]] + INIT[4..] && INIT[4..] == [INIT[4]] + [];
    PackedNothing();
  }

  lemma PackedNothing()
    ensures Packed([]) == []
  {
  }

  /** The part of the data that fills complete blocks, and the rest. */
  function Whole(data: Bytes): (n: nat)
    ensures n <= |data| < n + BLOCK && n % BLOCK == 0
  {
    |data| - |data| % BLOCK
  }

  function Tail(data: Bytes): Bytes { data[Whole(data)..] }

  lemma TailLength(data: Bytes)
    ensures |Tail(data)| == |data| % BLOCK
  {
  }

  /** Data that arrives behind a tail: folding everything is folding the tail and what arrives. */
  lemma FoldResumes(f: BlockFunction, chain: Chain, a: Bytes, b: Bytes)
    ensures Fold(f, chain, a + b) == Fold(f, Fold(f, chain, a), Tail(a) + b)
    ensures Tail(a + b) == Tail(Tail(a) + b)
  {
    var w := a[..Whole(a)];
    assert a + b == w + (Tail(a) + b) && a == w + Tail(a);
    FoldAppend(f, chain, w, Tail(a) + b);
    FoldAppend(f, chain, w, Tail(a));
    var n := Whole(Tail(a) + b);
    assert Whole(a + b) == |w| + n;
    assert (a + b)[|w| + n..] == (Tail(a) + b)[n..];
  }

  // ---- The streaming form ----

  class RMDContext {
    const f: BlockFunction
    var state: array<Word>
    var count: nat            // in bits
    var buffer: array<byte>
    ghost var fed: Bytes      // everything hashed so far

    ghost predicate Valid()
      reads this, state, buffer
    {
      && state.Length == 5 && buffer.Length == BLOCK
      && count == 8 * |fed|
      && state[..] == Fold(f, INIT, fed)
      && buffer[..|fed| % BLOCK] == Tail(fed)
    }

    constructor (f: BlockFunction)
      ensures Valid() && fed == [] && this.f == f && fresh(state) && fresh(buffer)
    {
      this.f := f;
      state := new Word[5](i requires 0 <= i < 5 => INIT[i]);
      count := 0;
      buffer := new byte[BLOCK](_ => 0);
      fed := [];
      new;
      assert state[..] == INIT;
    }

    /** copy */
    constructor Copy(from: RMDContext)
      requires from.Valid()
      ensures Valid() && fed == from.fed && f == from.f && fresh(state) && fresh(buffer)
    {
      f := from.f;
      state := new Word[5](i requires 0 <= i < 5 && from.Valid() reads from, from.state, from.buffer => from.state[i]);
      count := from.count;
      buffer := new byte[BLOCK](i requires 0 <= i < BLOCK && from.Valid()
          reads from, from.state, from.buffer => from.buffer[i]);
      fed := from.fed;
      new;
      assert state[..] == from.state[..];
      assert buffer[..] == from.buffer[..];
      assert buffer[..|fed| % BLOCK] == buffer[..][..|fed| % BLOCK];
      assert from.buffer[..|fed| % BLOCK] == from.buffer[..][..|fed| % BLOCK];
    }

    /** RMD160Transform on the state array. */
    method Transform(block: Bytes)
      requires state.Length == 5 && |block| >= BLOCK
      modifies state
      ensures state[..] == f(old(state[..]), block[..BLOCK])
    {
      var next := f(state[..], block[..BLOCK]);
      for i := 0 to 5
        invariant forall k :: 0 <= k < i ==> state[k] == next[k]
      {
        state[i] := next[i];
      }
    }

    /** Copy input bytes into the buffer behind the first `have`. */
    method Fill(have: nat, bytes: Bytes)
      requires buffer.Length == BLOCK && have + |bytes| <= BLOCK
      modifies buffer
      ensures buffer[..have + |bytes|] == old(buffer[..have]) + bytes
    {
      for i := 0 to |bytes|
        invariant buffer[..have + i] == old(buffer[..have]) + bytes[..i]
      {
        buffer[have + i] := bytes[i];
        assert buffer[..have + i] == old(buffer[..have]) + bytes[..i];
        assert buffer[..have + i + 1] == buffer[..have + i] + [bytes[i]];
      }
      assert bytes[..|bytes|] == bytes;
    }

    /** The loop of RMD160Update over the complete blocks of the input from off on. */
    method TransformBlocks(inp: Bytes, off: nat) returns (end: nat)
      requires state.Length == 5 && off <= |inp|
      modifies state
      ensures off <= end <= |inp| < end + BLOCK && (end - off) % BLOCK == 0
      ensures state[..] == Fold(f, old(state[..]), inp[off..])
    {
      end := off;
      while end + BLOCK <= |inp|
        invariant off <= end <= |inp| && (end - off) % BLOCK == 0
        invariant Fold(f, state[..], inp[end..]) == Fold(f, old(state[..]), inp[off..])
      {
        assert inp[end..][BLOCK..] == inp[end + BLOCK..];
        Transform(inp[end..]);
        end := end + BLOCK;
      }
    }

    /** The part of RMD160Update for input that completes the buffer; `off` is where the unused rest begins. */
    method TakeBlocks(have: nat, inp: Bytes) returns (off: nat)
      requires state.Length == 5 && buffer.Length == BLOCK && have < BLOCK <= have + |inp|
      modifies state, buffer
      ensures off <= |inp| < off + BLOCK
      ensures state[..] == Fold(f, old(state[..]), old(buffer[..have]) + inp)
      ensures Tail(old(buffer[..have]) + inp) == inp[off..]
    {
      ghost var tail := buffer[..have];
      off := 0;
      if have != 0 {
        off := BLOCK - have;
        FoldFirst(f, state[..], tail, inp, off);
        Fill(have, inp[..off]);
        assert buffer[..] == buffer[..have + off] == buffer[..][..BLOCK];
        Transform(buffer[..]);
      } else {
        assert tail + inp == inp[0..];
      }
      hide Fold, Tail;
      off := TransformBlocks(inp, off);
      TailIsRest(tail, inp, off);
    }

    /** RMD160Update */
    method Update(inp: Bytes)
      requires Valid()
      modifies this, state, buffer
      ensures Valid() && fed == old(fed) + inp
      ensures state == old(state) && buffer == old(buffer)
    {
      hide Fold, Tail;
      var have := (count / 8) % BLOCK;
      var need := BLOCK - have;
      ghost var tail := Tail(fed);
      FoldResumes(f, INIT, fed, inp);
      TailLength(fed);
      TailLength(fed + inp);
      count := count + 8 * |inp|;
      var off := 0;
      if |inp| >= need {
        off := TakeBlocks(have, inp);
        have := 0;
      } else {
        FoldShort(f, state[..], tail + inp);
      }
      if off < |inp| {
        Fill(have, inp[off..]);
      }
      fed := fed + inp;
    }

    /** RMD160Final; Err is the struct.error for a bit count of 2**64 or more. */
    method Final() returns (digest: Result<Bytes>)
      requires Valid()
      modifies this, state, buffer
      ensures digest == if 8 * |old(fed)| < Pow256(8) then Ok(Hash(f, old(fed))) else Err
      ensures digest.Err? ==> Valid() && fed == old(fed) && state == old(state) && buffer == old(buffer)
    {
      hide Padded, Packed, Fold;
      Pow256Values();
      if count >= 0x1_0000_0000_0000_0000 {
        return Err;
      }
      var size := ToLE(count, 8);
      var padlen := BLOCK - (count / 8) % BLOCK;
      if padlen < 1 + 8 {
        padlen := padlen + BLOCK;
      }
      ghost var msg := fed;
      Update(PADDING[..padlen - 8]);
      Update(size);
      PaddedIs(msg, padlen);
      return Ok(Packed(state[..]));
    }
  }

  const PADDING: Bytes := [0x80] + Zeros(63)

  /** What RMD160Final feeds in completes the padded message. */
  lemma PaddedIs(msg: Bytes, padlen: nat)
    requires padlen == if |msg| % BLOCK > 55 then 128 - |msg| % BLOCK else 64 - |msg| % BLOCK
    ensures msg + PADDING[..padlen - 8] + ToLE(8 * |msg|, 8) == Padded(msg)
  {
    hide Zeros, ToLE;
    var z := (55 - |msg|) % BLOCK;
    assert padlen - 8 == z + 1 by {
      ZeroCount(|msg|, padlen);
    }
    assert PADDING[..z + 1] == [0x80] + Zeros(z) by {
      PaddingStart(z);
    }
  }

  lemma ZeroCount(n: nat, padlen: nat)
    requires padlen == if n % BLOCK > 55 then 128 - n % BLOCK else 64 - n % BLOCK
    ensures padlen - 9 == (55 - n) % BLOCK
  {
    assert n == n / BLOCK * BLOCK + n % BLOCK;
    assert 55 - n == (padlen - 9) + (if n % BLOCK > 55 then -1 - n / BLOCK else 0 - n / BLOCK) * BLOCK;
  }

  lemma PaddingStart(k: nat)
    requires k <= 63
    ensures PADDING[..k + 1] == [0x80] + Zeros(k)
  {
  }

  class RIPEMD160 {
    const f: BlockFunction
    var ctx: RMDContext
    var dig: Option<Bytes>

    ghost predicate Valid()
      reads this, ctx, ctx.state, ctx.buffer
    {
      && ctx.Valid() && ctx.f == f
      && (dig.Some? ==> 8 * |ctx.fed| < Pow256(8) && dig.value == Hash(f, ctx.fed))
    }

    /** __init__ */
    constructor (f: BlockFunction, arg: Bytes)
      ensures Valid() && ctx.fed == arg && fresh(ctx) && fresh(ctx.state) && fresh(ctx.buffer) && this.f == f
    {
      var c := new RMDContext(f);
      if arg != [] {
        c.Update(arg);
      }
      this.f := f;
      ctx := c;
      dig := None;
      new;
      assert [] + arg == arg;
    }

    method Update(arg: Bytes)
      requires Valid()
      modifies this, ctx, ctx.state, ctx.buffer
      ensures Valid() && ctx == old(ctx) && ctx.fed == old(ctx.fed) + arg
      ensures ctx.state == old(ctx.state) && ctx.buffer == old(ctx.buffer)
    {
      ctx.Update(arg);
      dig := None;
    }

    /** digest: the hash of everything fed in so far, whatever was asked before, and nothing fed in later depends on
        it having been asked. */
    method Digest() returns (r: Result<Bytes>)
      requires Valid()
      modifies this, ctx, ctx.state, ctx.buffer
      ensures r == if 8 * |old(ctx.fed)| < Pow256(8) then Ok(Hash(f, old(ctx.fed))) else Err
      ensures r.Ok? ==> IsPacked(r.value, Fold(f, INIT, Padded(old(ctx.fed)))) && |r.value| == 20
      ensures Valid() && ctx.fed == old(ctx.fed)
      ensures ctx == old(ctx) || (fresh(ctx) && fresh(ctx.state) && fresh(ctx.buffer))
    {
      PackedBytes(Fold(f, INIT, Padded(ctx.fed)));
      hide Fold, Padded, Packed;
      if dig.Some? {
        return Ok(dig.value);
      }
      var copy := new RMDContext.Copy(ctx);
      r := ctx.Final();
      match r {
        case Err =>
        case Ok(d) =>
          dig := Some(d);
          ctx := copy;
      }
    }
  }

  lemma FoldShort(f: BlockFunction, chain: Chain, data: Bytes)
    requires |data| < BLOCK
    ensures Fold(f, chain, data) == chain && Tail(data) == data
  {
  }

  lemma TailIsRest(tail: Bytes, inp: Bytes, off: nat)
    requires off <= |inp| < off + BLOCK && (|tail| + off) % BLOCK == 0
    ensures Tail(tail + inp) == inp[off..]
  {
    assert Whole(tail + inp) == |tail| + off;
    assert (tail + inp)[|tail| + off..] == inp[off..];
  }

  /** A buffer completed by the first bytes of the input is folded first. */
  lemma FoldFirst(f: BlockFunction, chain: Chain, tail: Bytes, inp: Bytes, need: nat)
    requires need <= |inp| && |tail| + need == BLOCK
    ensures Fold(f, chain, tail + inp) == Fold(f, f(chain, tail + inp[..need]), inp[need..])
  {
    assert (tail + inp)[..BLOCK] == tail + inp[..need];
    assert (tail + inp)[BLOCK..] == inp[need..];
  }
}
