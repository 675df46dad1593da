/** Types shared by every part of the model. */
module Common {

  type byte = x: int | 0 <= x < 256

  type Bytes = seq<byte>

  datatype Option<+T> = None | Some(value: T)

  datatype Result<+T> = Ok(value: T) | Err

  /** What was read so far in front of the result of reading the rest. */
  function Prepend<T>(a: seq<T>, r: Result<seq<T>>): Result<seq<T>>
  {
    match r
    case Err => Err
    case Ok(rest) => Ok(a + rest)
  }

  lemma PrependAppend<T>(a: seq<T>, b: seq<T>, r: Result<seq<T>>)
    ensures Prepend(a, Prepend(b, r)) == Prepend(a + b, r)
  {
    if r.Ok? {
      assert a + (b + r.value) == (a + b) + r.value;
    }
  }

  lemma PrependEmpty<T>(r: Result<seq<T>>)
    ensures Prepend([], r) == r
  {
    if r.Ok? {
      assert [] + r.value == r.value;
    }
  }

  lemma SliceConcat<T>(a: seq<T>, b: seq<T>)
    ensures (a + b)[..|a|] == a && (a + b)[|a|..] == b
  {
  }

  lemma ConcatAssoc<T>(a: seq<T>, b: seq<T>, c: seq<T>)
    ensures (a + b) + c == a + (b + c)
  {
  }

  lemma ConcatSlice<T>(s: seq<T>, k: nat)
    requires k <= |s|
    ensures s == s[..k] + s[k..]
  {
  }

  lemma ProductMonotone(a: int, b: int, d: int)
    requires d > 0 && a <= b
    ensures a * d <= b * d
  {
  }

  /** The quotient and remainder of a division are unique. */
  lemma DivisionIs(x: int, d: int, q: int, r: int)
    requires d > 0 && x == q * d + r && 0 <= r < d
    ensures x / d == q && x % d == r
  {
    var q', r' := x / d, x % d;
    assert x == q' * d + r';
    if q < q' {
      ProductMonotone(q + 1, q', d);
    } else if q' < q {
      ProductMonotone(q' + 1, q, d);
    }
  }

  function Min(a: int, b: int): int { if a <= b then a else b }

  function Max(a: int, b: int): int { if a <= b then b else a }

  // ---- Reading at a position ----

  /** What was read, and the position behind it. */
  datatype Read<+T> = Read(value: T, next: nat)

  /** `piece` stands in s at pos. */
  predicate At<T(==)>(s: seq<T>, pos: nat, piece: seq<T>)
  {
    pos + |piece| <= |s| && s[pos..pos + |piece|] == piece
  }

  lemma AtSplit<T>(s: seq<T>, pos: nat, a: seq<T>, b: seq<T>)
    ensures At(s, pos, a + b) <==> At(s, pos, a) && At(s, pos + |a|, b)
  {
    if At(s, pos, a + b) {
      var t := s[pos..pos + |a| + |b|];
      assert t[..|a|] == a && t[|a|..] == b;
      assert s[pos..pos + |a|] == t[..|a|];
      assert s[pos + |a|..pos + |a| + |b|] == t[|a|..];
    }
    if At(s, pos, a) && At(s, pos + |a|, b) {
      assert s[pos..pos + |a| + |b|] == s[pos..pos + |a|] + s[pos + |a|..pos + |a| + |b|];
    }
  }

  lemma AtIndex<T>(s: seq<T>, pos: nat, piece: seq<T>, k: nat)
    requires At(s, pos, piece) && k < |piece|
    ensures pos + |piece| <= |s| && s[pos + k] == piece[k]
  {
    assert s[pos..pos + |piece|][k] == s[pos + k];
  }
}
