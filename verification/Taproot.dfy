/** Taproot script trees: Merkle root, paths and control blocks (BIP-341, section "Script validation rules"). */
module Taproot {
  import opened Common
  import opened Wire

  // ---- Trees ----

  datatype Tree<+T> = Leaf(value: T) | Branch(left: Tree<T>, right: Tree<T>)

  /** flatten */
  function Flatten<T>(t: Tree<T>): seq<T>
  {
    match t
    case Leaf(v) => [v]
    case Branch(l, r) => Flatten(l) + Flatten(r)
  }

  function Depth<T>(t: Tree<T>): nat
  {
    match t
    case Leaf(_) => 0
    case Branch(l, r) => 1 + Max(Depth(l), Depth(r))
  }

  /** transform: the same tree with other leaves. */
  function MapTree<S, T>(f: S -> T, t: Tree<S>): Tree<T>
  {
    match t
    case Leaf(v) => Leaf(f(v))
    case Branch(l, r) => Branch(MapTree(f, l), MapTree(f, r))
  }

  function MapSeq<S, T>(f: S -> T, s: seq<S>): seq<T>
  {
    seq(|s|, i requires 0 <= i < |s| => f(s[i]))
  }

  lemma {:induction false} FlattenOfMap<S, T>(f: S -> T, t: Tree<S>)
    ensures Flatten(MapTree(f, t)) == MapSeq(f, Flatten(t))
  {
    match t {
      case Leaf(v) =>
      case Branch(l, r) =>
        FlattenOfMap(f, l);
        FlattenOfMap(f, r);
    }
  }

  // ---- Order of byte strings ----

  /** bytes.__lt__ */
  predicate Less(a: Bytes, b: Bytes)
  {
    if b == [] then false
    else if a == [] then true
    else a[0] < b[0] || (a[0] == b[0] && Less(a[1..], b[1..]))
  }

  lemma {:induction false} LessIsTotal(a: Bytes, b: Bytes)
    ensures !(Less(a, b) && Less(b, a))
    ensures !Less(a, b) && !Less(b, a) ==> a == b
    decreases |a|
  {
    if a != [] && b != [] {
      LessIsTotal(a[1..], b[1..]);
      assert a == [a[0]] + a[1..] && b == [b[0]] + b[1..];
    }
  }

  // ---- Hashes ----

  /** bip340_tagged_hash, of which only the length of its results is known. */
  type TaggedHash = (string, Bytes) -> Bytes

  ghost predicate Is32(h: TaggedHash)
  {
    forall tag, msg :: |h(tag, msg)| == 32
  }

  datatype TapLeaf = TapLeaf(version: byte, script: Bytes)

  predicate Sized(leaf: TapLeaf) { |leaf.script| < MAX_SIZE }

  predicate AllSized(t: Tree<TapLeaf>)
  {
    match t
    case Leaf(v) => Sized(v)
    case Branch(l, r) => AllSized(l) && AllSized(r)
  }

  function LeafHash(h: TaggedHash, leaf: TapLeaf): Bytes
    requires Sized(leaf)
  {
    h("TapLeaf", [leaf.version] + WitnessPush(leaf.script))
  }

  // ---- taproot_tree_helper ----

  datatype LeafPath = LeafPath(leaf: TapLeaf, path: Bytes)

  function Extended(paths: seq<LeafPath>, sibling: Bytes): (r: seq<LeafPath>)
    ensures |r| == |paths|
  {
    seq(|paths|, i requires 0 <= i < |paths| => LeafPath(paths[i].leaf, paths[i].path + sibling))
  }

  /** The leaves with their paths, and the root. */
  function Helper(h: TaggedHash, t: Tree<TapLeaf>): (seq<LeafPath>, Bytes)
    requires AllSized(t)
  {
    match t
    case Leaf(leaf) => ([LeafPath(leaf, [])], LeafHash(h, leaf))
    case Branch(l, r) =>
      var (left, leftHash) := Helper(h, l);
      var (right, rightHash) := Helper(h, r);
      (Extended(left, rightHash) + Extended(right, leftHash),
       if Less(rightHash, leftHash) then h("TapBranch", rightHash + leftHash) else h("TapBranch", leftHash + rightHash))
  }

  function LeavesOf(paths: seq<LeafPath>): seq<TapLeaf>
  {
    seq(|paths|, i requires 0 <= i < |paths| => paths[i].leaf)
  }

  /** Leaves come out from left to right. */
  lemma {:induction false} HelperKeepsOrder(h: TaggedHash, t: Tree<TapLeaf>)
    requires AllSized(t)
    ensures LeavesOf(Helper(h, t).0) == Flatten(t)
  {
    match t {
      case Leaf(_) =>
      case Branch(l, r) =>
        HelperKeepsOrder(h, l);
        HelperKeepsOrder(h, r);
        var left, right := Helper(h, l), Helper(h, r);
        assert LeavesOf(Extended(left.0, right.1)) == LeavesOf(left.0);
        assert LeavesOf(Extended(right.0, left.1)) == LeavesOf(right.0);
    }
  }

  // ---- Validation ----

  /** One step of the Merkle computation: the smaller hash first. */
  function Combined(h: TaggedHash, k: Bytes, e: Bytes): Bytes
  {
    if Less(k, e) then h("TapBranch", k + e) else h("TapBranch", e + k)
  }

  /** The root that a path of 32-byte siblings leads to. */
  function Folded(h: TaggedHash, k: Bytes, path: Bytes): Bytes
    decreases |path|
  {
    if |path| < 32 then k else Folded(h, Combined(h, k, path[..32]), path[32..])
  }

  lemma {:induction false} FoldedSnoc(h: TaggedHash, k: Bytes, path: Bytes, e: Bytes)
    requires |path| % 32 == 0 && |e| == 32
    ensures Folded(h, k, path + e) == Combined(h, Folded(h, k, path), e)
    decreases |path|
  {
    if path == [] {
      assert path + e == e && e[..32] == e && e[32..] == [];
    } else {
      assert (path + e)[..32] == path[..32] && (path + e)[32..] == path[32..] + e;
      FoldedSnoc(h, Combined(h, k, path[..32]), path[32..], e);
    }
  }

  lemma SiblingsCombine(h: TaggedHash, l: Bytes, r: Bytes)
    ensures var root := if Less(r, l) then h("TapBranch", r + l) else h("TapBranch", l + r);
            Combined(h, l, r) == root && Combined(h, r, l) == root
  {
    LessIsTotal(l, r);
  }

  predicate LeadsTo(h: TaggedHash, p: LeafPath, root: Bytes, depth: nat)
  {
    && Sized(p.leaf) && |p.path| % 32 == 0 && |p.path| <= 32 * depth
    && Folded(h, LeafHash(h, p.leaf), p.path) == root
  }

  lemma ExtendedLeadsTo(h: TaggedHash, p: LeafPath, root: Bytes, depth: nat, sibling: Bytes)
    requires LeadsTo(h, p, root, depth) && |sibling| == 32
    ensures LeadsTo(h, LeafPath(p.leaf, p.path + sibling), Combined(h, root, sibling), depth + 1)
  {
    FoldedSnoc(h, LeafHash(h, p.leaf), p.path, sibling);
  }

  lemma HelperRootIs32(h: TaggedHash, t: Tree<TapLeaf>)
    requires AllSized(t) && Is32(h)
    ensures |Helper(h, t).1| == 32
  {
  }

  lemma JoinedAt(left: seq<LeafPath>, right: seq<LeafPath>, l: Bytes, r: Bytes, i: nat)
    requires i < |left| + |right|
    ensures (Extended(left, r) + Extended(right, l))[i] ==
            if i < |left| then LeafPath(left[i].leaf, left[i].path + r)
            else LeafPath(right[i - |left|].leaf, right[i - |left|].path + l)
  {
  }

  lemma LeadsToDeeper(h: TaggedHash, p: LeafPath, root: Bytes, a: nat, b: nat)
    requires LeadsTo(h, p, root, a) && a <= b
    ensures LeadsTo(h, p, root, b)
  {
  }

  /** Every leaf's path leads to the returned root, and is no longer than the tree is deep. */
  lemma {:induction false} PathsLeadToRoot(h: TaggedHash, t: Tree<TapLeaf>, i: nat)
    requires AllSized(t) && Is32(h) && i < |Helper(h, t).0|
    ensures LeadsTo(h, Helper(h, t).0[i], Helper(h, t).1, Depth(t))
    decreases t
  {
    match t {
      case Leaf(leaf) =>
        assert LeadsTo(h, LeafPath(leaf, []), LeafHash(h, leaf), 0);
      case Branch(l, r) =>
        hide Folded, Combined, Less, LeadsTo, LeafHash, Extended;
        HelperRootIs32(h, l);
        HelperRootIs32(h, r);
        var left, right := Helper(h, l), Helper(h, r);
        SiblingsCombine(h, left.1, right.1);
        JoinedAt(left.0, right.0, left.1, right.1, i);
        if i < |left.0| {
          PathsLeadToRoot(h, l, i);
          ExtendedLeadsTo(h, left.0[i], left.1, Depth(l), right.1);
          LeadsToDeeper(h, Helper(h, t).0[i], Helper(h, t).1, Depth(l) + 1, Depth(t));
        } else {
          PathsLeadToRoot(h, r, i - |left.0|);
          ExtendedLeadsTo(h, right.0[i - |left.0|], right.1, Depth(r), left.1);
          LeadsToDeeper(h, Helper(h, t).0[i], Helper(h, t).1, Depth(r) + 1, Depth(t));
        }
    }
  }

  // ---- Control blocks ----

  const MAX_DEPTH := 128

  /** The bytes of a control block. */
  function Block(first: byte, internal: Bytes, path: Bytes): Bytes { [first] + internal + path }

  /** control_block_for_taproot_script_spend, given the parity of the output key: the script and the control block, or
      None for the IndexError. */
  function ControlBlock(h: TaggedHash, internal: Bytes, t: Tree<TapLeaf>, n: nat, parity: nat): Option<(Bytes, Bytes)>
    requires AllSized(t) && parity <= 1
  {
    var info := Helper(h, t).0;
    if n >= |info| || info[n].leaf.version + parity >= 256 then None
    else Some((info[n].leaf.script, Block(info[n].leaf.version + parity, internal, info[n].path)))
  }

  /** What a validator computes from a script and a control block: leaf version, parity, internal key and Merkle
      root. */
  datatype Opened = Opened(version: byte, parity: nat, internal: Bytes, root: Bytes)

  predicate RightLength(n: nat) { n >= 33 && (n - 33) % 32 == 0 && n <= 33 + 32 * MAX_DEPTH }

  /** The leaf version without the parity bit. */
  function EvenPart(x: byte): byte { x - x % 2 }

  /** The first byte, the internal key and the path. */
  function Parsed(c: Bytes): Option<(byte, Bytes, Bytes)>
  {
    if RightLength(|c|) then Some((c[0], c[1..33], c[33..])) else None
  }

  function Open(h: TaggedHash, script: Bytes, c: Bytes): Option<Opened>
    requires |script| < MAX_SIZE
  {
    match Parsed(c)
    case None => None
    case Some((first, internal, path)) =>
      var version := EvenPart(first);
      Some(Opened(version, first - version, internal, Folded(h, LeafHash(h, TapLeaf(version, script)), path)))
  }

  lemma EvenPlusParity(version: byte, parity: nat)
    requires version % 2 == 0 && parity <= 1
    ensures version + parity < 256 && EvenPart(version + parity) == version
  {
  }

  lemma BlockParts(first: byte, internal: Bytes, path: Bytes)
    requires |internal| == 32 && RightLength(33 + |path|)
    ensures Parsed(Block(first, internal, path)) == Some((first, internal, path))
  {
    hide RightLength;
    var c := Block(first, internal, path);
    assert c[1..33] == internal;
    assert c[33..] == path;
  }

  lemma PathLengthIsRight(n: nat, depth: nat)
    requires n % 32 == 0 && n <= 32 * depth && depth <= MAX_DEPTH
    ensures RightLength(33 + n)
  {
  }

  lemma OpenIs(h: TaggedHash, leaf: TapLeaf, parity: nat, internal: Bytes, path: Bytes)
    requires Sized(leaf) && leaf.version + parity < 256 && EvenPart(leaf.version + parity) == leaf.version
    requires |internal| == 32 && RightLength(33 + |path|)
    ensures Open(h, leaf.script, Block(leaf.version + parity, internal, path))
         == Some(Opened(leaf.version, parity, internal, Folded(h, LeafHash(h, leaf), path)))
  {
    hide Folded, LeafHash, EvenPart, RightLength, Parsed, Block, Sized;
    BlockParts(leaf.version + parity, internal, path);
  }

  lemma NthLeaf(h: TaggedHash, t: Tree<TapLeaf>, n: nat)
    requires AllSized(t) && n < |Flatten(t)|
    ensures n < |Helper(h, t).0| && Helper(h, t).0[n].leaf == Flatten(t)[n]
  {
    HelperKeepsOrder(h, t);
    hide Helper, Flatten;
    assert LeavesOf(Helper(h, t).0)[n] == Helper(h, t).0[n].leaf;
  }

  /** A control block made for a leaf with an even version, in a tree within the depth limit, opens to that leaf, the
      internal key, the parity and the root the output key was tweaked with. */
  lemma ControlBlockOpens(h: TaggedHash, internal: Bytes, t: Tree<TapLeaf>, n: nat, parity: nat)
    requires AllSized(t) && Is32(h) && |internal| == 32 && parity <= 1 && Depth(t) <= MAX_DEPTH
    requires n < |Flatten(t)| && Flatten(t)[n].version % 2 == 0
    ensures var r := ControlBlock(h, internal, t, n, parity);
            && r.Some? && r.value.0 == Flatten(t)[n].script && |r.value.0| < MAX_SIZE
            && Open(h, r.value.0, r.value.1)
               == Some(Opened(Flatten(t)[n].version, parity, internal, Helper(h, t).1))
  {
    hide Helper, Folded, Flatten, Depth, LeafHash, Open, EvenPart, RightLength, Block;
    NthLeaf(h, t, n);
    PathsLeadToRoot(h, t, n);
    var p := Helper(h, t).0[n];
    EvenPlusParity(p.leaf.version, parity);
    PathLengthIsRight(|p.path|, Depth(t));
    OpenIs(h, p.leaf, parity, internal, p.path);
  }
}
