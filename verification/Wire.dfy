/** Little-endian integers and the CompactSize length prefix, as written by var_int and witness_push. */
module Wire {
  import opened Common

  function Pow256(k: nat): (p: nat)
    ensures p > 0
  {
    if k == 0 then 1 else 256 * Pow256(k - 1)
  }

  /** int.to_bytes(n, length=k, byteorder="little") */
  function ToLE(n: nat, k: nat): (b: Bytes)
    ensures |b| == k
  {
    if k == 0 then [] else [n % 256] + ToLE(n / 256, k - 1)
  }

  function FromLE(b: Bytes): nat
  {
    if b == [] then 0 else b[0] + 256 * FromLE(b[1..])
  }

  lemma {:induction false} FromLEToLE(n: nat, k: nat)
    requires n < Pow256(k)
    ensures FromLE(ToLE(n, k)) == n
  {
    if k > 0 {
      FromLEToLE(n / 256, k - 1);
      assert ToLE(n, k)[1..] == ToLE(n / 256, k - 1);
    }
  }

  lemma Pow256Values()
    ensures Pow256(1) == 0x100 && Pow256(2) == 0x1_0000 && Pow256(4) == 0x1_0000_0000
    ensures Pow256(8) == 0x1_0000_0000_0000_0000
  {
    assert Pow256(3) == 256 * Pow256(2);
    assert Pow256(4) == 256 * Pow256(3);
    assert Pow256(5) == 256 * Pow256(4);
    assert Pow256(6) == 256 * Pow256(5);
    assert Pow256(7) == 256 * Pow256(6);
  }

  const MAX_SIZE: nat := 0x1_0000_0000_0000_0000

  /** var_int */
  function VarInt(n: nat): (b: Bytes)
    requires n < MAX_SIZE
    ensures |b| > 0
  {
    if n < 0xfd then [n]
    else if n <= 0xffff then [0xfd] + ToLE(n, 2)
    else if n <= 0xffff_ffff then [0xfe] + ToLE(n, 4)
    else [0xff] + ToLE(n, 8)
  }

  /** witness_push: an element with its length in front. */
  function WitnessPush(item: Bytes): Bytes
    requires |item| < MAX_SIZE
  {
    VarInt(|item|) + item
  }

  // ---- Reading at a position; Err is the SerializationError ----

  /** read_bytes */
  function ReadBytes(s: Bytes, pos: nat, n: nat): (r: Result<Read<Bytes>>)
    ensures r.Ok? <==> pos + n <= |s|
    ensures r.Ok? ==> r.value.next == pos + n && r.value.value == s[pos..pos + n]
  {
    if pos + n <= |s| then Ok(Read(s[pos..pos + n], pos + n)) else Err
  }

  /** _read_num for an unsigned little-endian format of k bytes. */
  function ReadLE(s: Bytes, pos: nat, k: nat): (r: Result<Read<nat>>)
    ensures r.Ok? <==> pos + k <= |s|
    ensures r.Ok? ==> r.value.next == pos + k
  {
    if pos + k <= |s| then Ok(Read(FromLE(s[pos..pos + k]), pos + k)) else Err
  }

  /** read_compact_size */
  function ReadCompactSize(s: Bytes, pos: nat): (r: Result<Read<nat>>)
    ensures r.Ok? ==> pos < r.value.next <= |s|
  {
    if pos >= |s| then Err
    else if s[pos] == 253 then ReadLE(s, pos + 1, 2)
    else if s[pos] == 254 then ReadLE(s, pos + 1, 4)
    else if s[pos] == 255 then ReadLE(s, pos + 1, 8)
    else Ok(Read(s[pos], pos + 1))
  }

  lemma ReadLEOfToLE(s: Bytes, pos: nat, n: nat, k: nat)
    requires n < Pow256(k) && At(s, pos, ToLE(n, k))
    ensures ReadLE(s, pos, k) == Ok(Read(n, pos + k))
  {
    FromLEToLE(n, k);
  }

  lemma ReadCompactSizeOfVarInt(s: Bytes, pos: nat, n: nat)
    requires n < MAX_SIZE && At(s, pos, VarInt(n))
    ensures ReadCompactSize(s, pos) == Ok(Read(n, pos + |VarInt(n)|))
  {
    Pow256Values();
    assert s[pos] == VarInt(n)[0] by {
      assert s[pos..pos + |VarInt(n)|][0] == s[pos];
    }
    if n >= 0xfd {
      var k := if n <= 0xffff then 2 else if n <= 0xffff_ffff then 4 else 8;
      AtSplit(s, pos, [VarInt(n)[0]], ToLE(n, k));
      ReadLEOfToLE(s, pos + 1, n, k);
    }
  }

  lemma ReadAfter(s: Bytes, pos: nat, a: Bytes, b: Bytes)
    requires At(s, pos, a + b)
    ensures At(s, pos, a) && ReadBytes(s, pos + |a|, |b|) == Ok(Read(b, pos + |a + b|))
  {
    AtSplit(s, pos, a, b);
  }

  /** A length-prefixed element is read back, and the reader stops right behind it. */
  lemma ReadWitnessPush(s: Bytes, pos: nat, item: Bytes)
    requires |item| < MAX_SIZE && At(s, pos, WitnessPush(item))
    ensures ReadCompactSize(s, pos) == Ok(Read(|item|, pos + |VarInt(|item|)|))
    ensures ReadBytes(s, pos + |VarInt(|item|)|, |item|) == Ok(Read(item, pos + |WitnessPush(item)|))
  {
    ReadAfter(s, pos, VarInt(|item|), item);
    ReadCompactSizeOfVarInt(s, pos, |item|);
  }
}
