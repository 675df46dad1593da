/** The JSON Patch records of the database (section 4 of RFC 6902): what they do to a document, and their text. */
module JsonPatch {
  import opened Common
  import opened Decimal
  import opened Json

  // ---- Dictionaries and lists ----

  /** dict[key] = v: in place, or at the end. */
  function Put(fs: Fields, key: string, v: Value): (r: Fields)
    ensures HasKey(r, key) && ValueAt(r, key) == v
    ensures forall k :: k != key ==>
            (HasKey(r, k) <==> HasKey(fs, k)) && (HasKey(fs, k) ==> ValueAt(r, k) == ValueAt(fs, k))
  {
    if fs.End? then Field(key, v, End)
    else if fs.key == key then Field(key, v, fs.rest)
    else Field(fs.key, fs.value, Put(fs.rest, key, v))
  }

  function Length(xs: Items): nat { if xs.Nil? then 0 else 1 + Length(xs.tail) }

  function Insert(xs: Items, n: nat, v: Value): Items
    requires n <= Length(xs)
  {
    if n == 0 then Cons(v, xs) else Cons(xs.head, Insert(xs.tail, n - 1, v))
  }

  function Replaced(xs: Items, n: nat, v: Value): Items
    requires n < Length(xs)
  {
    if n == 0 then Cons(v, xs.tail) else Cons(xs.head, Replaced(xs.tail, n - 1, v))
  }

  function Removed(xs: Items, n: nat): Items
    requires n < Length(xs)
  {
    if n == 0 then xs.tail else Cons(xs.head, Removed(xs.tail, n - 1))
  }

  function ItemAt(xs: Items, n: nat): Value
    requires n < Length(xs)
  {
    if n == 0 then xs.head else ItemAt(xs.tail, n - 1)
  }

  /** An array index in a pointer: digits without a leading zero (section 4 of RFC 6901). */
  function IndexOf(token: string): Option<nat>
  {
    if token != [] && (forall i :: 0 <= i < |token| ==> IsDigit(token[i])) && (token[0] == '0' ==> |token| == 1)
    then Some(NatOf(token)) else None
  }

  lemma IndexOfText(n: nat)
    ensures IndexOf(NatText(n)) == Some(n)
  {
    NatOfText(n);
  }

  // ---- Applying a record ----

  type Path = seq<string>

  datatype Op = Add(value: Value) | Replace(value: Value) | Remove

  datatype Patch = Patch(path: Path, op: Op)

  /** What a reference token leads to. */
  function Child(doc: Value, token: string): Option<Value>
  {
    match doc
    case Obj(fs) => if HasKey(fs, token) then Some(ValueAt(fs, token)) else None
    case Arr(xs) => (match IndexOf(token)
                     case Some(n) => if n < Length(xs) then Some(ItemAt(xs, n)) else None
                     case None => None)
    case _ => None
  }

  /** The document with what a reference token leads to replaced. */
  function WithChild(doc: Value, token: string, v: Value): Value
    requires Child(doc, token).Some?
  {
    match doc
    case Obj(fs) => Obj(Put(fs, token, v))
    case Arr(xs) => Arr(Replaced(xs, IndexOf(token).value, v))
  }

  function EditField(fs: Fields, key: string, op: Op): Result<Fields>
  {
    match op
    case Add(v) => Ok(Put(fs, key, v))
    case Replace(v) => if HasKey(fs, key) then Ok(Put(fs, key, v)) else Err
    case Remove => if HasKey(fs, key) then Ok(Without(fs, key)) else Err
  }

  function EditItem(xs: Items, token: string, op: Op): Result<Items>
  {
    if token == "-" && op.Add? then Ok(Insert(xs, Length(xs), op.value))
    else match IndexOf(token)
      case None => Err
      case Some(n) =>
        match op
        case Add(v) => if n <= Length(xs) then Ok(Insert(xs, n, v)) else Err
        case Replace(v) => if n < Length(xs) then Ok(Replaced(xs, n, v)) else Err
        case Remove => if n < Length(xs) then Ok(Removed(xs, n)) else Err
  }

  function EditHere(doc: Value, token: string, op: Op): Result<Value>
  {
    match doc
    case Obj(fs) => (match EditField(fs, token, op) case Ok(r) => Ok(Obj(r)) case Err => Err)
    case Arr(xs) => (match EditItem(xs, token, op) case Ok(r) => Ok(Arr(r)) case Err => Err)
    case _ => Err
  }

  function Edit(doc: Value, path: Path, op: Op): Result<Value>
    decreases |path|
  {
    if path == [] then Err
    else if |path| == 1 then EditHere(doc, path[0], op)
    else if Child(doc, path[0]).None? then Err
    else match Edit(Child(doc, path[0]).value, path[1..], op)
      case Ok(c) => Ok(WithChild(doc, path[0], c))
      case Err => Err
  }

  /** Apply the records in order. */
  function Replay(doc: Value, patches: seq<Patch>): Result<Value>
    decreases |patches|
  {
    if patches == [] then Ok(doc)
    else match Edit(doc, patches[0].path, patches[0].op)
      case Ok(d) => Replay(d, patches[1..])
      case Err => Err
  }

  lemma {:induction false} ReplayAppend(doc: Value, a: seq<Patch>, b: seq<Patch>)
    ensures Replay(doc, a + b) == match Replay(doc, a) case Ok(d) => Replay(d, b) case Err => Err
    decreases |a|
  {
    if a == [] {
      assert a + b == b;
    } else {
      assert (a + b)[1..] == a[1..] + b;
      match Edit(doc, a[0].path, a[0].op) {
        case Ok(d) => ReplayAppend(d, a[1..], b);
        case Err =>
      }
    }
  }

  // ---- Pointers as text ----

  predicate PlainKey(k: string)
  {
    forall i :: 0 <= i < |k| ==> k[i] != '/' && k[i] != '~'
  }

  predicate PlainPath(p: Path)
  {
    p == [] || (PlainKey(p[0]) && PlainPath(p[1..]))
  }

  function Join(parts: Path): string
    requires parts != []
  {
    if |parts| == 1 then parts[0] else parts[0] + ("/" + Join(parts[1..]))
  }

  /** key_path */
  function PointerText(parts: Path): string
    requires parts != []
  {
    "/" + Join(parts)
  }

  /** The first slash from i on, or the end. */
  function SlashFrom(s: string, i: nat): (j: nat)
    requires i <= |s|
    ensures i <= j <= |s|
    decreases |s| - i
  {
    if i < |s| && s[i] != '/' then SlashFrom(s, i + 1) else i
  }

  function Split(s: string): (r: Path)
    ensures r != []
    decreases |s|
  {
    var j := SlashFrom(s, 0);
    if j == |s| then [s] else [s[..j]] + Split(s[j + 1..])
  }

  /** The tokens of a pointer; escaped characters are not read. */
  function PointerOf(text: string): Option<Path>
  {
    if '~' in text then None
    else if text == "" then Some([])
    else if text[0] != '/' then None
    else Some(Split(text[1..]))
  }

  lemma {:induction false} SlashFromIs(s: string, i: nat, j: nat)
    requires i <= j <= |s| && (forall k :: i <= k < j ==> s[k] != '/') && (j < |s| ==> s[j] == '/')
    ensures SlashFrom(s, i) == j
    decreases j - i
  {
    if i < j {
      SlashFromIs(s, i + 1, j);
    }
  }

  lemma {:induction false} JoinHasNoTilde(parts: Path)
    requires parts != [] && PlainPath(parts)
    ensures '~' !in Join(parts)
    decreases |parts|
  {
    if |parts| > 1 {
      JoinHasNoTilde(parts[1..]);
    }
  }

  lemma SplitStep(k: string, rest: string)
    requires PlainKey(k)
    ensures Split(k + ("/" + rest)) == [k] + Split(rest)
  {
    var s := k + ("/" + rest);
    assert s[|k|] == '/';
    SlashFromIs(s, 0, |k|);
    assert s[..|k|] == k && s[|k| + 1..] == rest;
  }

  lemma {:induction false} SplitOfJoin(parts: Path)
    requires parts != [] && PlainPath(parts)
    ensures Split(Join(parts)) == parts
    decreases |parts|
  {
    hide Split;
    if |parts| == 1 {
      SplitWhole(parts[0]);
    } else {
      SplitOfJoin(parts[1..]);
      SplitStep(parts[0], Join(parts[1..]));
    }
  }

  lemma SplitWhole(k: string)
    requires PlainKey(k)
    ensures Split(k) == [k]
  {
    SlashFromIs(k, 0, |k|);
  }

  lemma PointerRoundTrip(parts: Path)
    requires parts != [] && PlainPath(parts)
    ensures PointerOf(PointerText(parts)) == Some(parts)
  {
    SplitOfJoin(parts);
    JoinHasNoTilde(parts);
    assert PointerText(parts)[1..] == Join(parts);
  }

  // ---- Records as JSON ----

  function PatchValue(p: Patch): Value
    requires p.path != []
  {
    var path := Str(PointerText(p.path));
    match p.op
    case Add(v) => Obj(Field("op", Str("add"), Field("path", path, Field("value", v, End))))
    case Replace(v) => Obj(Field("op", Str("replace"), Field("path", path, Field("value", v, End))))
    case Remove => Obj(Field("op", Str("remove"), Field("path", path, End)))
  }

  function TextOf(fs: Fields, key: string): Option<string>
  {
    if HasKey(fs, key) && ValueAt(fs, key).Str? then Some(ValueAt(fs, key).s) else None
  }

  /** The record that a JSON value stands for. */
  function PatchOf(v: Value): Option<Patch>
  {
    if !v.Obj? then None
    else
      var path := match TextOf(v.fields, "path") case Some(s) => PointerOf(s) case None => None;
      if path.None? then None
      else match TextOf(v.fields, "op")
        case Some("remove") => Some(Patch(path.value, Remove))
        case Some("add") =>
          if HasKey(v.fields, "value") then Some(Patch(path.value, Add(ValueAt(v.fields, "value")))) else None
        case Some("replace") =>
          if HasKey(v.fields, "value") then Some(Patch(path.value, Replace(ValueAt(v.fields, "value")))) else None
        case _ => None
  }

  predicate OpPrintable(op: Op) { op.Remove? || Printable(op.value) }

  predicate PatchOk(p: Patch)
  {
    p.path != [] && PlainPath(p.path) && OpPrintable(p.op)
  }

  lemma MemberNamesDiffer()
    ensures "op" != "path" && "op" != "value" && "path" != "value"
    ensures "add" != "replace" && "add" != "remove" && "replace" != "remove"
  {
    assert "op"[0] == 'o' && "path"[0] == 'p' && "value"[0] == 'v';
    assert "add"[2] == 'd' && "replace"[2] == 'p' && "remove"[2] == 'm';
  }

  lemma KeysOfField(k: string, v: Value, rest: Fields, key: string)
    ensures HasKey(Field(k, v, rest), key) <==> k == key || HasKey(rest, key)
    ensures !HasKey(End, key)
  {
  }

  lemma PatchRoundTrip(p: Patch)
    requires PatchOk(p)
    ensures Printable(PatchValue(p)) && PatchOf(PatchValue(p)) == Some(p)
  {
    PointerRoundTrip(p.path);
    MemberNamesDiffer();
    hide PointerText, PointerOf;
    var tail := if p.op.Remove? then End else Field("value", p.op.value, End);
    var mid := Field("path", Str(PointerText(p.path)), tail);
    KeysOfField("value", if p.op.Remove? then Null else p.op.value, End, "path");
    KeysOfField("value", if p.op.Remove? then Null else p.op.value, End, "op");
    assert FieldsPrintable(tail) && !HasKey(tail, "path") && !HasKey(tail, "op");
    assert !HasKey(mid, "op") && HasKey(mid, "path") && (HasKey(mid, "value") <==> !p.op.Remove?);
    assert FieldsPrintable(mid);
    assert !p.op.Remove? ==> ValueAt(mid, "value") == p.op.value;
    var name := match p.op case Add(_) => "add" case Replace(_) => "replace" case Remove => "remove";
    var fs := Field("op", Str(name), mid);
    assert FieldsPrintable(fs);
    assert TextOf(fs, "op") == Some(name);
    assert ValueAt(mid, "path") == Str(PointerText(p.path)) && TextOf(fs, "path") == Some(PointerText(p.path));
    assert HasKey(fs, "value") <==> HasKey(mid, "value");
    assert PatchValue(p) == Obj(fs);
  }
}
