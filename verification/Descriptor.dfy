/** Output script descriptors over opaque keys: the printer and the parser (BIP-386 for tr). */
module Descriptor {
  import opened Common
  import opened Decimal
  import opened Taproot

  // ---- Descriptors ----

  type Key = string

  datatype Descriptor =
    | PK(key: Key)
    | PKH(key: Key)
    | WPKH(key: Key)
    | Multi(thresh: int, keys: seq<Key>, isSorted: bool)
    | SH(sub: Descriptor)
    | WSH(sub: Descriptor)
    | TR(internal: Key, tree: Option<Tree<Descriptor>>)

  /** What is known about keys: which texts are keys, which of them are uncompressed, and which come first when the
      keys of a sortedmulti are sorted. */
  datatype Keys = Keys(valid: Key -> bool, uncompressed: Key -> bool, less: (Key, Key) -> bool)

  datatype Place = TOP | P2SH | P2WPKH | P2WSH | P2TR

  // ---- Printing ----

  /** ",".join(keys) */
  function Joined(keys: seq<Key>): string
  {
    if keys == [] then "" else if |keys| == 1 then keys[0] else keys[0] + ("," + Joined(keys[1..]))
  }

  function Call(name: string, body: string): string { name + ("(" + (body + ")")) }

  function ThresholdText(n: int): string { if n < 0 then "-" + NatText(-n) else NatText(n) }

  /** to_string_no_checksum */
  function Print(d: Descriptor): string
  {
    match d
    case PK(k) => Call("pk", k)
    case PKH(k) => Call("pkh", k)
    case WPKH(k) => Call("wpkh", k)
    case Multi(n, keys, isSorted) =>
      Call(if isSorted then "sortedmulti" else "multi", ThresholdText(n) + ("," + Joined(keys)))
    case SH(sub) => Call("sh", Print(sub))
    case WSH(sub) => Call("wsh", Print(sub))
    case TR(k, tree) => Call("tr", match tree case None => k case Some(t) => k + ("," + PrintTree(t)))
  }

  /** tree_to_str */
  function PrintTree(t: Tree<Descriptor>): string
  {
    match t
    case Leaf(d) => Print(d)
    case Branch(l, r) => "{" + (PrintTree(l) + ("," + (PrintTree(r) + "}")))
  }

  // ---- Constructors ----

  /** Stable insertion behind everything that does not come later. */
  function Inserted(less: (Key, Key) -> bool, keys: seq<Key>, k: Key): seq<Key>
  {
    if keys == [] then [k]
    else if less(k, keys[|keys| - 1]) then Inserted(less, keys[..|keys| - 1], k) + [keys[|keys| - 1]]
    else keys + [k]
  }

  /** list.sort */
  function Sorted(less: (Key, Key) -> bool, keys: seq<Key>): seq<Key>
  {
    if keys == [] then [] else Inserted(less, Sorted(less, keys[..|keys| - 1]), keys[|keys| - 1])
  }

  /** MultisigDescriptor.__init__ */
  function NewMulti(env: Keys, thresh: int, keys: seq<Key>, isSorted: bool): Result<Descriptor>
  {
    if !(1 <= thresh <= |keys| <= 15) then Err
    else Ok(Multi(thresh, if isSorted then Sorted(env.less, keys) else keys, isSorted))
  }

  /** TRDescriptor.__init__ */
  function NewTr(internal: Key, tree: Option<Tree<Descriptor>>): Result<Descriptor>
  {
    if tree.Some? && Depth(tree.value) > MAX_DEPTH then Err else Ok(TR(internal, tree))
  }

  // ---- Parsing ----

  /** str.index and str.find, or the length. */
  function IndexOf(s: string, c: char): (i: nat)
    ensures i <= |s| && (forall k :: 0 <= k < i ==> s[k] != c) && (i < |s| ==> s[i] == c)
  {
    if s == "" || s[0] == c then 0 else 1 + IndexOf(s[1..], c)
  }

  /** str.rindex, or None for the ValueError. */
  function LastIndexOf(s: string, c: char): (r: Option<nat>)
    ensures r.Some? ==> r.value < |s| && s[r.value] == c && forall k :: r.value < k < |s| ==> s[k] != c
    ensures r.None? ==> forall k :: 0 <= k < |s| ==> s[k] != c
  {
    if s == "" then None
    else if s[|s| - 1] == c then Some(|s| - 1)
    else LastIndexOf(s[..|s| - 1], c)
  }

  /** _get_func_expr */
  function GetFuncExpr(s: string): (r: Result<(string, string)>)
    ensures r.Ok? ==> |r.value.1| < |s|
  {
    var start := IndexOf(s, '(');
    var end := LastIndexOf(s, ')');
    if start == |s| || end.None? then Err
    else Ok((s[..start], if end.value < start + 1 then "" else s[start + 1..end.value]))
  }

  /** Where the scan of _get_expr from i on stops. */
  function ExprEnd(s: string, i: nat, level: nat): (e: nat)
    requires i <= |s|
    ensures i <= e <= |s|
    decreases |s| - i
  {
    if i == |s| then i
    else if s[i] == '(' || s[i] == '{' then ExprEnd(s, i + 1, level + 1)
    else if level > 0 && (s[i] == ')' || s[i] == '}') then ExprEnd(s, i + 1, level - 1)
    else if level == 0 && (s[i] == ')' || s[i] == '}' || s[i] == ',') then i
    else ExprEnd(s, i + 1, level)
  }

  /** _get_expr */
  method GetExpr(s: string) returns (expr: string, rest: string)
    ensures expr == s[..ExprEnd(s, 0, 0)] && rest == s[ExprEnd(s, 0, 0)..]
  {
    var level := 0;
    for i := 0 to |s|
      invariant level >= 0 && ExprEnd(s, i, level) == ExprEnd(s, 0, 0)
    {
      var c := s[i];
      if c == '(' || c == '{' {
        level := level + 1;
      } else if level > 0 && (c == ')' || c == '}') {
        level := level - 1;
      } else if level == 0 && (c == ')' || c == '}' || c == ',') {
        return s[..i], s[i..];
      }
    }
    return s, "";
  }

  /** parse_pubkey */
  function ParsePubkey(env: Keys, expr: string, place: Place): (r: Result<(Key, string)>)
    ensures r.Ok? ==> |r.value.1| <= |expr| && r.value.0 != ""
    ensures r.Ok? && expr != "" ==> |r.value.1| < |expr|
  {
    var end := IndexOf(expr, ',');
    var key := expr[..end];
    var rest := if end < |expr| then expr[end + 1..] else "";
    if key == "" || !env.valid(key) then Err
    else if place != TOP && place != P2SH && env.uncompressed(key) then Err
    else Ok((key, rest))
  }

  /** The loop over the keys of a multisig. */
  function ParseKeys(env: Keys, expr: string, place: Place): Result<seq<Key>>
    decreases |expr|
  {
    if expr == "" then Ok([])
    else match ParsePubkey(env, expr, place)
      case Err => Err
      case Ok((key, rest)) =>
        match ParseKeys(env, rest, place)
        case Err => Err
        case Ok(keys) => Ok([key] + keys)
  }

  /** int(text), for texts of digits. */
  function IntOf(text: string): Option<int>
  {
    if text != "" && forall i :: 0 <= i < |text| ==> IsDigit(text[i]) then Some(NatOf(text)) else None
  }

  function ParseMulti(env: Keys, expr: string, place: Place, isSorted: bool): Result<Descriptor>
  {
    if place != TOP && place != P2SH && place != P2WSH then Err
    else
      var comma := IndexOf(expr, ',');
      if comma == |expr| then Err
      else match (IntOf(expr[..comma]), ParseKeys(env, expr[comma + 1..], place))
        case (Some(thresh), Ok(keys)) =>
          if |keys| == 0 || |keys| > 15 || thresh < 1 || thresh > |keys| || (place == TOP && |keys| > 3) then Err
          else NewMulti(env, thresh, keys, isSorted)
        case _ => Err
  }

  function ParseSingle(env: Keys, expr: string, place: Place): Result<Key>
  {
    match ParsePubkey(env, expr, place)
    case Err => Err
    case Ok((key, rest)) => if rest != "" then Err else Ok(key)
  }

  /** _parse_descriptor */
  function Parse(env: Keys, s: string, place: Place): Result<Descriptor>
    decreases |s|, 0
  {
    match GetFuncExpr(s)
    case Err => Err
    case Ok((func, expr)) => ParseCall(env, func, expr, place)
  }

  function ParseCall(env: Keys, func: string, expr: string, place: Place): Result<Descriptor>
    decreases |expr|, 2
  {
    if func == "pk" then
      match ParseSingle(env, expr, place) case Ok(k) => Ok(PK(k)) case Err => Err
    else if func == "pkh" then
      if place != TOP && place != P2SH && place != P2WSH then Err
      else match ParseSingle(env, expr, place) case Ok(k) => Ok(PKH(k)) case Err => Err
    else if func == "sortedmulti" || func == "multi" then ParseMulti(env, expr, place, func == "sortedmulti")
    else if func == "wpkh" then
      if place != TOP && place != P2SH then Err
      else match ParseSingle(env, expr, P2WPKH) case Ok(k) => Ok(WPKH(k)) case Err => Err
    else if func == "sh" then
      if place != TOP then Err
      else match Parse(env, expr, P2SH) case Ok(d) => Ok(SH(d)) case Err => Err
    else if func == "wsh" then
      if place != TOP && place != P2SH then Err
      else match Parse(env, expr, P2WSH) case Ok(d) => Ok(WSH(d)) case Err => Err
    else if func == "tr" then
      if place != TOP then Err else ParseTr(env, expr)
    else Err
  }

  function ParseTr(env: Keys, expr: string): Result<Descriptor>
    decreases |expr|, 1
  {
    match ParsePubkey(env, expr, TOP)
    case Err => Err
    case Ok((key, rest)) =>
      if rest == "" then NewTr(key, None)
      else match ParseTree(env, rest)
        case Err => Err
        case Ok((t, left)) => if left != "" then Err else NewTr(key, Some(t))
  }

  /** parse_tree */
  function ParseTree(env: Keys, s: string): (r: Result<(Tree<Descriptor>, string)>)
    ensures r.Ok? ==> |r.value.1| <= |s|
    decreases |s|, 1
  {
    if s == "" then Err
    else if s[0] != '{' then
      var e := ExprEnd(s, 0, 0);
      match Parse(env, s[..e], P2TR) case Ok(d) => Ok((Leaf(d), s[e..])) case Err => Err
    else if |s| < 5 || s[|s| - 1] != '}' then Err
    else match ParseTree(env, s[1..])
      case Err => Err
      case Ok((l, rest)) =>
        if rest == "" || rest[0] != ',' then Err
        else match ParseTree(env, rest[1..])
          case Err => Err
          case Ok((r, left)) =>
            if left == "" || left[0] != '}' then Err else Ok((Branch(l, r), left[1..]))
  }

  /** parse_descriptor, over any checksum function. */
  function ParseWithChecksum(env: Keys, checksum: string -> string, s: string): Result<Descriptor>
  {
    var i := IndexOf(s, '#');
    if i < |s| && checksum(s[..i]) != s[i + 1..] then Err else Parse(env, s[..i], TOP)
  }

  // ---- What the constructors and the parser let through ----

  predicate PlainKeyChar(c: char) { c !in {'(', ')', '{', '}', ',', '#'} }

  predicate PlainKey(k: Key) { k != "" && forall i :: 0 <= i < |k| ==> PlainKeyChar(k[i]) }

  predicate KeyOk(env: Keys, k: Key, place: Place)
  {
    PlainKey(k) && env.valid(k) && (place == TOP || place == P2SH || !env.uncompressed(k))
  }

  predicate AllKeysOk(env: Keys, keys: seq<Key>, place: Place)
  {
    keys == [] || (KeyOk(env, keys[0], place) && AllKeysOk(env, keys[1..], place))
  }

  /** No key comes before its predecessor. */
  predicate InOrder(less: (Key, Key) -> bool, keys: seq<Key>)
  {
    |keys| <= 1 || (!less(keys[|keys| - 1], keys[|keys| - 2]) && InOrder(less, keys[..|keys| - 1]))
  }

  predicate Printable(env: Keys, d: Descriptor, place: Place)
  {
    match d
    case PK(k) => KeyOk(env, k, place)
    case PKH(k) => (place == TOP || place == P2SH || place == P2WSH) && KeyOk(env, k, place)
    case WPKH(k) => (place == TOP || place == P2SH) && KeyOk(env, k, P2WPKH)
    case Multi(n, keys, isSorted) =>
      && (place == TOP || place == P2SH || place == P2WSH)
      && 1 <= n <= |keys| <= 15 && (place == TOP ==> |keys| <= 3)
      && AllKeysOk(env, keys, place) && (isSorted ==> InOrder(env.less, keys))
    case SH(sub) => place == TOP && Printable(env, sub, P2SH)
    case WSH(sub) => (place == TOP || place == P2SH) && Printable(env, sub, P2WSH)
    case TR(k, tree) =>
      place == TOP && KeyOk(env, k, TOP)
      && (match tree case None => true case Some(t) => Depth(t) <= MAX_DEPTH && TreePrintable(env, t))
  }

  predicate TreePrintable(env: Keys, t: Tree<Descriptor>)
  {
    match t
    case Leaf(d) => Printable(env, d, P2TR)
    case Branch(l, r) => TreePrintable(env, l) && TreePrintable(env, r)
  }

  // ---- Sorting ----

  lemma {:induction false} SortedIsSame(less: (Key, Key) -> bool, keys: seq<Key>)
    requires InOrder(less, keys)
    ensures Sorted(less, keys) == keys
    decreases |keys|
  {
    if keys != [] {
      var front, last := keys[..|keys| - 1], keys[|keys| - 1];
      assert keys == front + [last];
      if |keys| > 1 {
        SortedIsSame(less, front);
      } else {
        assert front == [];
      }
    }
  }

  ghost predicate Asymmetric(less: (Key, Key) -> bool)
  {
    forall a, b :: less(a, b) ==> !less(b, a)
  }

  lemma {:induction false} InsertedInOrder(less: (Key, Key) -> bool, keys: seq<Key>, k: Key)
    requires Asymmetric(less) && InOrder(less, keys)
    ensures var r := Inserted(less, keys, k);
            InOrder(less, r) && |r| == |keys| + 1 && (r[|r| - 1] == k || (keys != [] && r[|r| - 1] == keys[|keys| - 1]))
    decreases |keys|
  {
    var r := Inserted(less, keys, k);
    if keys != [] {
      var front, last := keys[..|keys| - 1], keys[|keys| - 1];
      if less(k, last) {
        InsertedInOrder(less, front, k);
        assert r[..|r| - 1] == Inserted(less, front, k);
      } else {
        assert r[..|r| - 1] == keys;
      }
    }
  }

  lemma {:induction false} SortedInOrder(less: (Key, Key) -> bool, keys: seq<Key>)
    requires Asymmetric(less)
    ensures InOrder(less, Sorted(less, keys)) && |Sorted(less, keys)| == |keys|
    decreases |keys|
  {
    if keys != [] {
      SortedInOrder(less, keys[..|keys| - 1]);
      InsertedInOrder(less, Sorted(less, keys[..|keys| - 1]), keys[|keys| - 1]);
    }
  }

  lemma {:induction false} InsertedAdds(less: (Key, Key) -> bool, keys: seq<Key>, k: Key)
    ensures multiset(Inserted(less, keys, k)) == multiset(keys) + multiset{k}
    decreases |keys|
  {
    if keys != [] {
      assert keys == keys[..|keys| - 1] + [keys[|keys| - 1]];
      InsertedAdds(less, keys[..|keys| - 1], k);
    }
  }

  lemma {:induction false} SortedIsPermutation(less: (Key, Key) -> bool, keys: seq<Key>)
    ensures multiset(Sorted(less, keys)) == multiset(keys)
    decreases |keys|
  {
    if keys != [] {
      assert keys == keys[..|keys| - 1] + [keys[|keys| - 1]];
      SortedIsPermutation(less, keys[..|keys| - 1]);
      InsertedAdds(less, Sorted(less, keys[..|keys| - 1]), keys[|keys| - 1]);
    }
  }

  // ---- Text ----

  lemma IndexOfIs(s: string, c: char, i: nat)
    requires i <= |s| && (forall k :: 0 <= k < i ==> s[k] != c) && (i < |s| ==> s[i] == c)
    ensures IndexOf(s, c) == i
  {
  }

  lemma NameParts(name: string, body: string)
    requires forall i :: 0 <= i < |name| ==> name[i] != '('
    ensures GetFuncExpr(Call(name, body)) == Ok((name, body))
  {
    var s := Call(name, body);
    IndexOfIs(s, '(', |name|);
    assert s[|s| - 1] == ')';
    assert s[..|name|] == name && s[|name| + 1..|s| - 1] == body;
  }

  lemma FirstKey(k: Key, rest: string)
    requires PlainKey(k) && (rest != "" ==> rest[0] == ',')
    ensures IndexOf(k + rest, ',') == |k| && (k + rest)[..|k|] == k
    ensures rest != "" ==> (k + rest)[|k| + 1..] == rest[1..]
  {
    forall i | 0 <= i < |k| ensures (k + rest)[i] != ',' {
      assert PlainKeyChar(k[i]);
    }
    IndexOfIs(k + rest, ',', |k|);
  }

  lemma ParsePubkeyOf(env: Keys, k: Key, rest: string, place: Place)
    requires KeyOk(env, k, place)
    ensures ParsePubkey(env, k, place) == Ok((k, ""))
    ensures ParsePubkey(env, k + ("," + rest), place) == Ok((k, rest))
  {
    FirstKey(k, "");
    assert k + "" == k;
    FirstKey(k, "," + rest);
    assert ("," + rest)[1..] == rest;
    hide IndexOf, PlainKey;
  }

  lemma {:induction false} ParseKeysOf(env: Keys, keys: seq<Key>, place: Place)
    requires AllKeysOk(env, keys, place)
    ensures ParseKeys(env, Joined(keys), place) == Ok(keys)
    decreases |keys|
  {
    hide ParsePubkey;
    if keys != [] {
      ParsePubkeyOf(env, keys[0], Joined(keys[1..]), place);
      ParseKeysOf(env, keys[1..], place);
      assert [keys[0]] + keys[1..] == keys;
    }
  }

  lemma ThresholdParts(n: nat, rest: string)
    ensures var expr := NatText(n) + ("," + rest);
            var comma := IndexOf(expr, ',');
            comma < |expr| && IntOf(expr[..comma]) == Some(n) && expr[comma + 1..] == rest
  {
    var text := NatText(n);
    var expr := text + ("," + rest);
    IndexOfIs(expr, ',', |text|);
    assert expr[..|text|] == text && expr[|text| + 1..] == rest;
    NatOfText(n);
  }

  lemma ParseMultiOf(env: Keys, n: int, keys: seq<Key>, isSorted: bool, place: Place)
    requires Printable(env, Multi(n, keys, isSorted), place)
    ensures ParseMulti(env, ThresholdText(n) + ("," + Joined(keys)), place, isSorted) == Ok(Multi(n, keys, isSorted))
  {
    hide ParseKeys, Joined, Sorted, IndexOf, NatText, IntOf, AllKeysOk, InOrder;
    ThresholdParts(n, Joined(keys));
    ParseKeysOf(env, keys, place);
    if isSorted {
      SortedIsSame(env.less, keys);
    }
  }

  lemma ParseSingleOf(env: Keys, k: Key, place: Place)
    requires KeyOk(env, k, place)
    ensures ParseSingle(env, k, place) == Ok(k)
  {
    ParsePubkeyOf(env, k, "", place);
    hide ParsePubkey;
  }

  // ---- Trees ----

  predicate ScanPlainChar(c: char) { c !in {'(', ')', '{', '}', ','} }

  lemma {:induction false} ScanOver(s: string, i: nat, level: nat, n: nat)
    requires i + n <= |s| && forall k :: i <= k < i + n ==> ScanPlainChar(s[k])
    ensures ExprEnd(s, i, level) == ExprEnd(s, i + n, level)
    decreases n
  {
    if n > 0 {
      assert ScanPlainChar(s[i]);
      ScanOver(s, i + 1, level, n - 1);
    }
  }

  /** What may follow a tree inside the text it was printed into. */
  predicate Follows(rest: string)
  {
    rest == "" || (rest[0] in {',', '}'} && rest[|rest| - 1] == '}')
  }

  /** _get_expr takes exactly a printed leaf. */
  lemma LeafEnd(k: Key, rest: string)
    requires PlainKey(k) && Follows(rest)
    ensures ExprEnd(Call("pk", k) + rest, 0, 0) == |Call("pk", k)|
    ensures (Call("pk", k) + rest)[0] == 'p'
  {
    var text := Call("pk", k);
    var s := text + rest;
    assert s[0] == 'p' && s[1] == 'k' && s[2] == '(' && s[3 + |k|] == ')';
    forall j | 3 <= j < 3 + |k| ensures ScanPlainChar(s[j]) {
      assert s[j] == k[j - 3] && PlainKeyChar(k[j - 3]);
    }
    ScanOver(s, 0, 0, 2);
    ScanOver(s, 3, 1, |k|);
    assert ExprEnd(s, 2, 0) == ExprEnd(s, 3, 1);
    assert ExprEnd(s, 3 + |k|, 1) == ExprEnd(s, 4 + |k|, 0);
    assert rest != "" ==> s[4 + |k|] == rest[0];
  }

  // ---- Parsing what was printed ----

  lemma NamesDiffer()
    ensures "pk" != "pkh" && "pk" != "wpkh" && "pk" != "sortedmulti" && "pk" != "multi"
    ensures "pk" != "sh" && "pk" != "wsh" && "pk" != "tr" && "pkh" != "wsh" && "pkh" != "wpkh"
    ensures "sh" != "pkh" && "sh" != "sortedmulti" && "sh" != "multi" && "sh" != "wpkh" && "sh" != "wsh" && "sh" != "tr"
    ensures "tr" != "pkh" && "tr" != "sortedmulti" && "tr" != "multi" && "tr" != "wpkh" && "tr" != "wsh"
    ensures "wsh" != "sortedmulti" && "wsh" != "multi" && "wsh" != "wpkh"
    ensures "wpkh" != "sortedmulti" && "wpkh" != "multi"
    ensures "multi" != "pkh" && "sortedmulti" != "pkh" && "multi" != "sortedmulti"
  {
    assert |"pk"| == |"sh"| == |"tr"| == 2 && |"pkh"| == |"wsh"| == 3 && |"wpkh"| == 4 && |"multi"| == 5;
    assert |"sortedmulti"| == 11;
    assert "pk"[0] == 'p' && "sh"[0] == 's' && "tr"[0] == 't' && "pkh"[0] == 'p' && "wsh"[0] == 'w';
  }

  predicate IsName(name: string)
  {
    name in {"pk", "pkh", "wpkh", "sortedmulti", "multi", "sh", "wsh", "tr"}
  }

  lemma ParseOfCall(env: Keys, name: string, body: string, place: Place)
    requires IsName(name)
    ensures Parse(env, Call(name, body), place) == ParseCall(env, name, body, place)
  {
    hide ParseCall, GetFuncExpr;
    NameParts(name, body);
  }

  lemma {:induction false} ParseOfPrint(env: Keys, d: Descriptor, place: Place)
    requires Printable(env, d, place)
    ensures Parse(env, Print(d), place) == Ok(d)
    decreases d, 0
  {
    hide Parse, ParseSingle, ParseMulti, ParseTr, Call, Joined, ThresholdText, KeyOk, AllKeysOk;
    NamesDiffer();
    match d {
      case PK(k) =>
        ParseOfCall(env, "pk", k, place);
        ParseSingleOf(env, k, place);
      case PKH(k) =>
        ParseOfCall(env, "pkh", k, place);
        ParseSingleOf(env, k, place);
      case WPKH(k) =>
        ParseOfCall(env, "wpkh", k, place);
        ParseSingleOf(env, k, P2WPKH);
      case Multi(n, keys, isSorted) =>
        ParseOfCall(env, if isSorted then "sortedmulti" else "multi", ThresholdText(n) + ("," + Joined(keys)), place);
        ParseMultiOf(env, n, keys, isSorted, place);
      case SH(sub) =>
        ParseOfCall(env, "sh", Print(sub), place);
        ParseOfPrint(env, sub, P2SH);
      case WSH(sub) =>
        ParseOfCall(env, "wsh", Print(sub), place);
        ParseOfPrint(env, sub, P2WSH);
      case TR(k, tree) =>
        var body := match tree case None => k case Some(t) => k + ("," + PrintTree(t));
        ParseOfCall(env, "tr", body, place);
        if tree.Some? {
          ParseTreeOfPrint(env, tree.value, "");
        }
        ParseTrOf(env, k, tree);
    }
  }

  lemma ParseTrOf(env: Keys, k: Key, tree: Option<Tree<Descriptor>>)
    requires KeyOk(env, k, TOP)
    requires tree.Some? ==> Depth(tree.value) <= MAX_DEPTH && PrintTree(tree.value) != ""
                            && ParseTree(env, PrintTree(tree.value) + "") == Ok((tree.value, ""))
    ensures ParseTr(env, match tree case None => k case Some(t) => k + ("," + PrintTree(t))) == Ok(TR(k, tree))
  {
    hide ParsePubkey, ParseTree, PrintTree, KeyOk;
    ParsePubkeyOf(env, k, if tree.Some? then PrintTree(tree.value) else "", TOP);
    if tree.Some? {
      assert PrintTree(tree.value) + "" == PrintTree(tree.value);
    }
  }

  lemma LeafIsPk(env: Keys, d: Descriptor)
    requires Printable(env, d, P2TR)
    ensures d.PK? && PlainKey(d.key) && Print(d) == Call("pk", d.key)
  {
  }

  /** How the text of a branch falls apart. */
  lemma BranchText(l: string, r: string, rest: string)
    requires |l| >= 2 && |r| >= 2 && Follows(rest)
    ensures var s := ("{" + (l + ("," + (r + "}")))) + rest;
            && |s| >= 5 && s[0] == '{' && s[|s| - 1] == '}'
            && s[1..] == l + ("," + (r + ("}" + rest)))
    ensures Follows("," + (r + ("}" + rest))) && Follows("}" + rest)
  {
    var s := ("{" + (l + ("," + (r + "}")))) + rest;
    assert s[|s| - 1] == if rest == "" then '}' else rest[|rest| - 1];
    var x := "," + (r + ("}" + rest));
    assert x[|x| - 1] == if rest == "" then '}' else rest[|rest| - 1];
    var y := "}" + rest;
    assert y[|y| - 1] == if rest == "" then '}' else rest[|rest| - 1];
  }

  lemma {:induction false} TreeTextLength(env: Keys, t: Tree<Descriptor>)
    requires TreePrintable(env, t)
    ensures |PrintTree(t)| >= 2
  {
    match t {
      case Leaf(d) => LeafIsPk(env, d);
      case Branch(l, r) =>
    }
  }

  lemma ParseLeaf(env: Keys, d: Descriptor, rest: string)
    requires Printable(env, d, P2TR) && Follows(rest) && Parse(env, Print(d), P2TR) == Ok(d)
    ensures ParseTree(env, Print(d) + rest) == Ok((Leaf(d), rest))
  {
    hide ExprEnd, PlainKey, Follows, Printable, Print, Call, ParseCall, GetFuncExpr;
    LeafIsPk(env, d);
    LeafEnd(d.key, rest);
    SliceConcat(Print(d), rest);
    assert ParseTree(env, Print(d) + rest) == Ok((Leaf(d), rest));
  }

  lemma ParseBranch(env: Keys, l: Tree<Descriptor>, r: Tree<Descriptor>, lt: string, rt: string, rest: string)
    requires |lt| >= 2 && |rt| >= 2 && Follows(rest)
    requires ParseTree(env, lt + ("," + (rt + ("}" + rest)))) == Ok((l, "," + (rt + ("}" + rest))))
    requires ParseTree(env, rt + ("}" + rest)) == Ok((r, "}" + rest))
    ensures ParseTree(env, ("{" + (lt + ("," + (rt + "}")))) + rest) == Ok((Branch(l, r), rest))
  {
    hide ExprEnd, Follows;
    BranchText(lt, rt, rest);
    var s := ("{" + (lt + ("," + (rt + "}")))) + rest;
    assert ("," + (rt + ("}" + rest)))[1..] == rt + ("}" + rest);
    assert ("}" + rest)[1..] == rest;
    assert ParseTree(env, s[1..]) == Ok((l, "," + (rt + ("}" + rest))));
    assert ParseTree(env, ("," + (rt + ("}" + rest)))[1..]) == Ok((r, "}" + rest));
    assert ParseTree(env, s) == Ok((Branch(l, r), rest));
  }

  lemma {:induction false} ParseTreeOfPrint(env: Keys, t: Tree<Descriptor>, rest: string)
    requires TreePrintable(env, t) && Follows(rest)
    ensures ParseTree(env, PrintTree(t) + rest) == Ok((t, rest)) && PrintTree(t) != ""
    decreases t, 1
  {
    hide ParseTree, Follows, Parse, Printable, Print;
    TreeTextLength(env, t);
    match t {
      case Leaf(d) =>
        ParseOfPrint(env, d, P2TR);
        ParseLeaf(env, d, rest);
      case Branch(l, r) =>
        TreeTextLength(env, l);
        TreeTextLength(env, r);
        BranchText(PrintTree(l), PrintTree(r), rest);
        ParseTreeOfPrint(env, l, "," + (PrintTree(r) + ("}" + rest)));
        ParseTreeOfPrint(env, r, "}" + rest);
        ParseBranch(env, l, r, PrintTree(l), PrintTree(r), rest);
    }
  }

  // ---- With a checksum ----

  predicate NoHash(s: string) { forall i :: 0 <= i < |s| ==> s[i] != '#' }

  lemma NoHashConcat(a: string, b: string)
    requires NoHash(a) && NoHash(b)
    ensures NoHash(a + b)
  {
  }

  lemma CallHasNoHash(name: string, body: string)
    requires IsName(name) && NoHash(body)
    ensures NoHash(Call(name, body))
  {
    NoHashConcat(body, ")");
    NoHashConcat("(", body + ")");
    NoHashConcat(name, "(" + (body + ")"));
  }

  lemma KeyHasNoHash(env: Keys, k: Key, place: Place)
    requires KeyOk(env, k, place)
    ensures NoHash(k)
  {
    forall i | 0 <= i < |k| ensures k[i] != '#' {
      assert PlainKeyChar(k[i]);
    }
  }

  lemma {:induction false} KeysHaveNoHash(env: Keys, keys: seq<Key>, place: Place)
    requires AllKeysOk(env, keys, place)
    ensures NoHash(Joined(keys))
    decreases |keys|
  {
    hide NoHash, KeyOk;
    if keys != [] {
      KeyHasNoHash(env, keys[0], place);
      KeysHaveNoHash(env, keys[1..], place);
      CommaHasNoHash(Joined(keys[1..]));
      NoHashConcat(keys[0], "," + Joined(keys[1..]));
    } else {
      EmptyHasNoHash();
    }
  }

  lemma EmptyHasNoHash()
    ensures NoHash("")
  {
  }

  lemma CommaHasNoHash(s: string)
    requires NoHash(s)
    ensures NoHash("," + s)
  {
  }

  lemma ThresholdHasNoHash(n: nat)
    ensures NoHash(ThresholdText(n))
  {
    var text := NatText(n);
    forall i | 0 <= i < |text| ensures text[i] != '#' {
      assert IsDigit(text[i]);
    }
  }

  lemma BracedHasNoHash(l: string, r: string)
    requires NoHash(l) && NoHash(r)
    ensures NoHash("{" + (l + ("," + (r + "}"))))
  {
    NoHashConcat(r, "}");
    NoHashConcat(",", r + "}");
    NoHashConcat(l, "," + (r + "}"));
    NoHashConcat("{", l + ("," + (r + "}")));
  }

  lemma {:induction false} PrintHasNoHash(env: Keys, d: Descriptor, place: Place)
    requires Printable(env, d, place)
    ensures NoHash(Print(d))
    decreases d
  {
    hide NoHash, Call, Joined, KeyOk, AllKeysOk, ThresholdText;
    match d {
      case PK(k) =>
        KeyHasNoHash(env, k, place);
        CallHasNoHash("pk", k);
      case PKH(k) =>
        KeyHasNoHash(env, k, place);
        CallHasNoHash("pkh", k);
      case WPKH(k) =>
        KeyHasNoHash(env, k, P2WPKH);
        CallHasNoHash("wpkh", k);
      case Multi(n, keys, isSorted) =>
        KeysHaveNoHash(env, keys, place);
        CommaHasNoHash(Joined(keys));
        ThresholdHasNoHash(n);
        NoHashConcat(ThresholdText(n), "," + Joined(keys));
        CallHasNoHash(if isSorted then "sortedmulti" else "multi", ThresholdText(n) + ("," + Joined(keys)));
      case SH(sub) =>
        PrintHasNoHash(env, sub, P2SH);
        CallHasNoHash("sh", Print(sub));
      case WSH(sub) =>
        PrintHasNoHash(env, sub, P2WSH);
        CallHasNoHash("wsh", Print(sub));
      case TR(k, tree) =>
        KeyHasNoHash(env, k, TOP);
        if tree.Some? {
          TreeHasNoHash(env, tree.value);
          CommaHasNoHash(PrintTree(tree.value));
          NoHashConcat(k, "," + PrintTree(tree.value));
          CallHasNoHash("tr", k + ("," + PrintTree(tree.value)));
        } else {
          CallHasNoHash("tr", k);
        }
    }
  }

  lemma {:induction false} TreeHasNoHash(env: Keys, t: Tree<Descriptor>)
    requires TreePrintable(env, t)
    ensures NoHash(PrintTree(t))
    decreases t
  {
    hide NoHash, Printable, Print;
    match t {
      case Leaf(d) => PrintHasNoHash(env, d, P2TR);
      case Branch(l, r) =>
        TreeHasNoHash(env, l);
        TreeHasNoHash(env, r);
        BracedHasNoHash(PrintTree(l), PrintTree(r));
    }
  }

  /** parse_descriptor inverts both printers, and refuses any other checksum. */
  lemma ParseWithChecksumOfPrint(env: Keys, checksum: string -> string, d: Descriptor, sum: string)
    requires Printable(env, d, TOP)
    ensures ParseWithChecksum(env, checksum, Print(d)) == Ok(d)
    ensures ParseWithChecksum(env, checksum, Print(d) + ("#" + sum))
         == if sum == checksum(Print(d)) then Ok(d) else Err
  {
    hide Parse, Print, Printable;
    ParseOfPrint(env, d, TOP);
    PrintHasNoHash(env, d, TOP);
    var p := Print(d);
    IndexOfIs(p, '#', |p|);
    assert p[..|p|] == p;
    var s := p + ("#" + sum);
    IndexOfIs(s, '#', |p|);
    assert s[..|p|] == p && s[|p| + 1..] == sum;
  }

  // ---- Printing what was parsed ----

  ghost predicate KeysArePlain(env: Keys)
  {
    forall k :: env.valid(k) ==> PlainKey(k)
  }

  lemma ParsedKeyOk(env: Keys, expr: string, place: Place)
    requires KeysArePlain(env)
    ensures ParsePubkey(env, expr, place).Ok? ==> KeyOk(env, ParsePubkey(env, expr, place).value.0, place)
    ensures ParseSingle(env, expr, place).Ok? ==> KeyOk(env, ParseSingle(env, expr, place).value, place)
  {
  }

  lemma {:induction false} ParsedKeysOk(env: Keys, expr: string, place: Place)
    requires KeysArePlain(env)
    ensures ParseKeys(env, expr, place).Ok? ==> AllKeysOk(env, ParseKeys(env, expr, place).value, place)
    decreases |expr|
  {
    hide KeyOk, ParsePubkey;
    if expr != "" && ParsePubkey(env, expr, place).Ok? {
      ParsedKeyOk(env, expr, place);
      ParsedKeysOk(env, ParsePubkey(env, expr, place).value.1, place);
    }
  }

  lemma {:induction false} AllKeysOkAppend(env: Keys, a: seq<Key>, b: seq<Key>, place: Place)
    ensures AllKeysOk(env, a + b, place) <==> AllKeysOk(env, a, place) && AllKeysOk(env, b, place)
    decreases |a|
  {
    hide KeyOk;
    if a == [] {
      assert a + b == b;
    } else {
      assert (a + b)[1..] == a[1..] + b;
      AllKeysOkAppend(env, a[1..], b, place);
    }
  }

  lemma OneKeyOk(env: Keys, k: Key, place: Place)
    ensures AllKeysOk(env, [k], place) <==> KeyOk(env, k, place)
  {
    assert [k][1..] == [];
  }

  lemma {:induction false} InsertedKeysOk(env: Keys, keys: seq<Key>, k: Key, place: Place)
    requires AllKeysOk(env, keys, place) && KeyOk(env, k, place)
    ensures AllKeysOk(env, Inserted(env.less, keys, k), place)
    decreases |keys|
  {
    hide KeyOk, AllKeysOk;
    OneKeyOk(env, k, place);
    if keys != [] {
      var front, last := keys[..|keys| - 1], keys[|keys| - 1];
      assert keys == front + [last];
      AllKeysOkAppend(env, front, [last], place);
      AllKeysOkAppend(env, keys, [k], place);
      InsertedKeysOk(env, front, k, place);
      AllKeysOkAppend(env, Inserted(env.less, front, k), [last], place);
    }
  }

  lemma {:induction false} SortedKeysOk(env: Keys, keys: seq<Key>, place: Place)
    requires AllKeysOk(env, keys, place)
    ensures AllKeysOk(env, Sorted(env.less, keys), place)
    decreases |keys|
  {
    hide KeyOk, Inserted;
    if keys != [] {
      var front, last := keys[..|keys| - 1], keys[|keys| - 1];
      assert keys == front + [last];
      AllKeysOkAppend(env, front, [last], place);
      OneKeyOk(env, last, place);
      SortedKeysOk(env, front, place);
      InsertedKeysOk(env, Sorted(env.less, front), last, place);
    }
  }

  lemma ParsedMultiPrintable(env: Keys, expr: string, place: Place, isSorted: bool)
    requires KeysArePlain(env) && Asymmetric(env.less)
    ensures var r := ParseMulti(env, expr, place, isSorted); r.Ok? ==> Printable(env, r.value, place)
  {
    hide ParseKeys, AllKeysOk, Sorted, InOrder, IntOf, KeysArePlain, Asymmetric;
    var comma := IndexOf(expr, ',');
    if comma < |expr| {
      var r := ParseKeys(env, expr[comma + 1..], place);
      ParsedKeysOk(env, expr[comma + 1..], place);
      if r.Ok? {
        SortedInOrder(env.less, r.value);
        SortedKeysOk(env, r.value, place);
      }
    }
  }

  lemma ParsedTrIsPrintable(env: Keys, expr: string)
    requires KeysArePlain(env)
    requires var key := ParsePubkey(env, expr, TOP);
             key.Ok? && key.value.1 != "" && ParseTree(env, key.value.1).Ok?
             ==> TreePrintable(env, ParseTree(env, key.value.1).value.0)
    ensures ParseTr(env, expr).Ok? ==> Printable(env, ParseTr(env, expr).value, TOP)
  {
    hide KeyOk, ParsePubkey, KeysArePlain, ParseTree, TreePrintable;
    ParsedKeyOk(env, expr, TOP);
  }

  /** Whatever the parser returns can be printed. */
  lemma {:induction false} ParsedIsPrintable(env: Keys, s: string, place: Place)
    requires KeysArePlain(env) && Asymmetric(env.less)
    ensures Parse(env, s, place).Ok? ==> Printable(env, Parse(env, s, place).value, place)
    decreases |s|, 0
  {
    hide KeyOk, ParseSingle, ParseMulti, ParsePubkey, KeysArePlain, Asymmetric, GetFuncExpr, TreePrintable;
    match GetFuncExpr(s) {
      case Err =>
      case Ok((func, expr)) =>
        ParsedKeyOk(env, expr, place);
        ParsedKeyOk(env, expr, P2WPKH);
        ParsedMultiPrintable(env, expr, place, func == "sortedmulti");
        ParsedIsPrintable(env, expr, P2SH);
        ParsedIsPrintable(env, expr, P2WSH);
        var key := ParsePubkey(env, expr, TOP);
        if key.Ok? && key.value.1 != "" {
          ParsedTreeIsPrintable(env, key.value.1);
        }
        ParsedTrIsPrintable(env, expr);
    }
  }

  lemma {:induction false} ParsedTreeIsPrintable(env: Keys, s: string)
    requires KeysArePlain(env) && Asymmetric(env.less)
    ensures ParseTree(env, s).Ok? ==> TreePrintable(env, ParseTree(env, s).value.0)
    decreases |s|, 1
  {
    hide Printable, KeysArePlain, Asymmetric;
    if s != "" {
      if s[0] != '{' {
        ParsedIsPrintable(env, s[..ExprEnd(s, 0, 0)], P2TR);
      } else {
        ParsedTreeIsPrintable(env, s[1..]);
        var l := ParseTree(env, s[1..]);
        if l.Ok? && l.value.1 != "" {
          ParsedTreeIsPrintable(env, l.value.1[1..]);
        }
      }
    }
  }

  /** Printing what was parsed and parsing it again changes nothing. */
  lemma ParsePrintParse(env: Keys, s: string, place: Place)
    requires KeysArePlain(env) && Asymmetric(env.less) && Parse(env, s, place).Ok?
    ensures Parse(env, Print(Parse(env, s, place).value), place) == Parse(env, s, place)
  {
    hide Parse, Print, Printable, KeysArePlain, Asymmetric;
    ParsedIsPrintable(env, s, place);
    ParseOfPrint(env, Parse(env, s, place).value, place);
  }
}
