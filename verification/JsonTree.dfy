/** The live tree of the database against the tree its stored form stands for. They differ only below the objects
    that were changed in place since they were last put into the tree. */
module JsonTree {
  import opened Common
  import opened Json
  import opened JsonPatch

  // ---- Edits of the live tree ----

  /** What stands at a path of dictionaries. */
  function Node(v: Value, path: Path): Option<Value>
    decreases |path|
  {
    if path == [] then Some(v)
    else if v.Obj? && HasKey(v.fields, path[0]) then Node(ValueAt(v.fields, path[0]), path[1..])
    else None
  }

  function WithNode(v: Value, path: Path, n: Value): Value
    requires Node(v, path).Some?
    decreases |path|
  {
    if path == [] then n
    else Obj(Put(v.fields, path[0], WithNode(ValueAt(v.fields, path[0]), path[1..], n)))
  }

  predicate IsDict(v: Value, path: Path) { Node(v, path).Some? && Node(v, path).value.Obj? }

  predicate IsList(v: Value, path: Path) { Node(v, path).Some? && Node(v, path).value.Arr? }

  function DictAt(v: Value, path: Path): Fields
    requires IsDict(v, path)
  {
    Node(v, path).value.fields
  }

  function ListAt(v: Value, path: Path): Items
    requires IsList(v, path)
  {
    Node(v, path).value.items
  }

  /** dict.__setitem__ and object.__setattr__ on what stands at the path. */
  function SetIn(v: Value, path: Path, key: string, w: Value): Value
    requires IsDict(v, path)
  {
    WithNode(v, path, Obj(Put(DictAt(v, path), key, w)))
  }

  /** dict.pop */
  function PopIn(v: Value, path: Path, key: string): Value
    requires IsDict(v, path)
  {
    WithNode(v, path, Obj(Without(DictAt(v, path), key)))
  }

  /** Popped and set again: the same value, now last in its dictionary. */
  function Reinserted(v: Value, path: Path, key: string): Value
    requires IsDict(v, path) && HasKey(DictAt(v, path), key)
  {
    var f := DictAt(v, path);
    WithNode(v, path, Obj(Put(Without(f, key), key, ValueAt(f, key))))
  }

  function Snoc(xs: Items, v: Value): Items
  {
    if xs.Nil? then Cons(v, Nil) else Cons(xs.head, Snoc(xs.tail, v))
  }

  /** list.append */
  function AppendIn(v: Value, path: Path, w: Value): Value
    requires IsList(v, path)
  {
    WithNode(v, path, Arr(Snoc(ListAt(v, path), w)))
  }

  /** Python's ==, for which True is 1, False is 0, and the order in a dictionary does not matter. */
  predicate PyEqual(a: Value, b: Value)
  {
    match (a, b)
    case (Arr(xs), Arr(ys)) => ItemsPyEqual(xs, ys)
    case (Obj(f), Obj(g)) => FieldCount(f) == FieldCount(g) && FieldsPyEqual(f, g)
    case (Bool(p), Num(n)) => n == if p then 1 else 0
    case (Num(n), Bool(p)) => n == if p then 1 else 0
    case _ => a == b
  }

  predicate ItemsPyEqual(xs: Items, ys: Items)
  {
    if xs.Nil? || ys.Nil? then xs.Nil? && ys.Nil?
    else PyEqual(xs.head, ys.head) && ItemsPyEqual(xs.tail, ys.tail)
  }

  predicate FieldsPyEqual(f: Fields, g: Fields)
  {
    f.Field? ==> HasKey(g, f.key) && PyEqual(f.value, ValueAt(g, f.key)) && FieldsPyEqual(f.rest, g)
  }

  function FieldCount(f: Fields): nat { if f.End? then 0 else 1 + FieldCount(f.rest) }

  /** list.index, or None for the ValueError. */
  function IndexIn(xs: Items, v: Value): (r: Option<nat>)
    ensures r.Some? ==> r.value < Length(xs)
  {
    if xs.Nil? then None
    else if PyEqual(xs.head, v) then Some(0)
    else match IndexIn(xs.tail, v)
      case Some(n) => Some(n + 1)
      case None => None
  }

  /** list.remove */
  function RemoveFirst(xs: Items, v: Value): Items
  {
    if xs.Nil? then Nil else if PyEqual(xs.head, v) then xs.tail else Cons(xs.head, RemoveFirst(xs.tail, v))
  }

  function RemoveIn(v: Value, path: Path, w: Value): Value
    requires IsList(v, path)
  {
    WithNode(v, path, Arr(RemoveFirst(ListAt(v, path), w)))
  }

  // ---- Records do the same to a tree as the edits they stand for ----

  lemma {:induction false} EditAtNode(v: Value, path: Path, token: string, op: Op)
    requires Node(v, path).Some?
    ensures Edit(v, path + [token], op) == match EditHere(Node(v, path).value, token, op)
                                           case Ok(n) => Ok(WithNode(v, path, n))
                                           case Err => Err
    decreases |path|
  {
    var whole := path + [token];
    if path == [] {
      assert whole == [token];
    } else {
      assert whole[0] == path[0] && whole[1..] == path[1..] + [token];
      EditAtNode(ValueAt(v.fields, path[0]), path[1..], token, op);
    }
  }

  lemma {:induction false} SnocIsInsert(xs: Items, v: Value)
    ensures Insert(xs, Length(xs), v) == Snoc(xs, v)
  {
    if xs.Cons? {
      SnocIsInsert(xs.tail, v);
    }
  }

  lemma {:induction false} RemoveFirstIsRemoved(xs: Items, v: Value)
    requires IndexIn(xs, v).Some?
    ensures RemoveFirst(xs, v) == Removed(xs, IndexIn(xs, v).value)
  {
    if !PyEqual(xs.head, v) {
      RemoveFirstIsRemoved(xs.tail, v);
    }
  }

  lemma {:induction false} PutSame(fs: Fields, key: string)
    requires HasKey(fs, key)
    ensures Put(fs, key, ValueAt(fs, key)) == fs
  {
    if fs.key != key {
      PutSame(fs.rest, key);
    }
  }

  lemma {:induction false} WithSameNode(v: Value, path: Path)
    requires Node(v, path).Some?
    ensures WithNode(v, path, Node(v, path).value) == v
    decreases |path|
  {
    if path != [] {
      WithSameNode(ValueAt(v.fields, path[0]), path[1..]);
      PutSame(v.fields, path[0]);
    }
  }

  // ---- Printability ----

  lemma {:induction false} PutPrintable(fs: Fields, key: string, v: Value)
    requires FieldsPrintable(fs) && Printable(v)
    ensures FieldsPrintable(Put(fs, key, v))
  {
    if fs.Field? && fs.key != key {
      PutPrintable(fs.rest, key, v);
    }
  }

  lemma {:induction false} WithoutPrintable(fs: Fields, key: string)
    requires FieldsPrintable(fs)
    ensures FieldsPrintable(Without(fs, key)) && !HasKey(Without(fs, key), key)
    ensures forall k :: k != key ==> (HasKey(Without(fs, key), k) <==> HasKey(fs, k))
  {
    if fs.Field? && fs.key != key {
      WithoutPrintable(fs.rest, key);
    }
  }

  lemma {:induction false} SnocPrintable(xs: Items, v: Value)
    requires AllPrintable(xs) && Printable(v)
    ensures AllPrintable(Snoc(xs, v))
  {
    if xs.Cons? {
      SnocPrintable(xs.tail, v);
    }
  }

  lemma {:induction false} RemoveFirstPrintable(xs: Items, v: Value)
    requires AllPrintable(xs)
    ensures AllPrintable(RemoveFirst(xs, v))
  {
    if xs.Cons? && !PyEqual(xs.head, v) {
      RemoveFirstPrintable(xs.tail, v);
    }
  }

  lemma {:induction false} FieldPrintable(fs: Fields, key: string)
    requires FieldsPrintable(fs) && HasKey(fs, key)
    ensures Printable(ValueAt(fs, key))
  {
    if fs.key != key {
      FieldPrintable(fs.rest, key);
    }
  }

  lemma {:induction false} NodePrintable(v: Value, path: Path)
    requires Printable(v) && Node(v, path).Some?
    ensures Printable(Node(v, path).value)
    decreases |path|
  {
    if path != [] {
      FieldPrintable(v.fields, path[0]);
      NodePrintable(ValueAt(v.fields, path[0]), path[1..]);
    }
  }

  lemma {:induction false} WithNodePrintable(v: Value, path: Path, n: Value)
    requires Printable(v) && Node(v, path).Some? && Printable(n)
    ensures Printable(WithNode(v, path, n))
    decreases |path|
  {
    if path != [] {
      FieldPrintable(v.fields, path[0]);
      WithNodePrintable(ValueAt(v.fields, path[0]), path[1..], n);
      PutPrintable(v.fields, path[0], WithNode(ValueAt(v.fields, path[0]), path[1..], n));
    }
  }

  lemma {:induction false} NodeOfWithNode(v: Value, path: Path, n: Value)
    requires Node(v, path).Some?
    ensures Node(WithNode(v, path, n), path) == Some(n)
    decreases |path|
  {
    if path != [] {
      NodeOfWithNode(ValueAt(v.fields, path[0]), path[1..], n);
    }
  }

  lemma {:induction false} ItemPrintable(xs: Items, n: nat)
    requires AllPrintable(xs) && n < Length(xs)
    ensures Printable(ItemAt(xs, n))
  {
    if n > 0 {
      ItemPrintable(xs.tail, n - 1);
    }
  }

  lemma {:induction false} ItemEditsPrintable(xs: Items, n: nat, v: Value)
    requires AllPrintable(xs) && n <= Length(xs)
    ensures Printable(v) ==> AllPrintable(Insert(xs, n, v))
    ensures n < Length(xs) ==> AllPrintable(Removed(xs, n)) && (Printable(v) ==> AllPrintable(Replaced(xs, n, v)))
  {
    if n > 0 {
      ItemEditsPrintable(xs.tail, n - 1, v);
    }
  }

  lemma EditHerePrintable(doc: Value, token: string, op: Op)
    requires Printable(doc) && OpPrintable(op)
    ensures EditHere(doc, token, op).Ok? ==> Printable(EditHere(doc, token, op).value)
    ensures EditHere(doc, token, op).Ok? && doc.Obj? ==> EditHere(doc, token, op).value.Obj?
  {
    var v := if op.Remove? then Null else op.value;
    match doc {
      case Obj(fs) =>
        PutPrintable(fs, token, v);
        WithoutPrintable(fs, token);
      case Arr(xs) =>
        ItemEditsPrintable(xs, Length(xs), v);
        if IndexOf(token).Some? && IndexOf(token).value <= Length(xs) {
          ItemEditsPrintable(xs, IndexOf(token).value, v);
        }
      case _ =>
    }
  }

  /** Records keep a printable dictionary a printable dictionary. */
  lemma {:induction false} EditPrintable(doc: Value, path: Path, op: Op)
    requires Printable(doc) && OpPrintable(op)
    ensures Edit(doc, path, op).Ok? ==> Printable(Edit(doc, path, op).value)
    ensures Edit(doc, path, op).Ok? && doc.Obj? ==> Edit(doc, path, op).value.Obj?
    decreases |path|
  {
    hide OpPrintable, EditHere, Put, Replaced;
    if |path| == 1 {
      EditHerePrintable(doc, path[0], op);
    } else if path != [] && Child(doc, path[0]).Some? {
      var c := Child(doc, path[0]).value;
      if doc.Obj? {
        FieldPrintable(doc.fields, path[0]);
      } else {
        ItemPrintable(doc.items, IndexOf(path[0]).value);
      }
      EditPrintable(c, path[1..], op);
      if Edit(c, path[1..], op).Ok? {
        var c' := Edit(c, path[1..], op).value;
        if doc.Obj? {
          PutPrintable(doc.fields, path[0], c');
        } else {
          ItemEditsPrintable(doc.items, IndexOf(path[0]).value, c');
        }
      }
    }
  }

  lemma {:induction false} PutTwice(fs: Fields, key: string, v: Value, w: Value)
    ensures Put(Put(fs, key, v), key, w) == Put(fs, key, w)
  {
    if fs.Field? && fs.key != key {
      PutTwice(fs.rest, key, v, w);
    }
  }

  lemma {:induction false} WithNodeTwice(v: Value, path: Path, n: Value, m: Value)
    requires Node(v, path).Some?
    ensures Node(WithNode(v, path, n), path) == Some(n)
    ensures WithNode(WithNode(v, path, n), path, m) == WithNode(v, path, m)
    decreases |path|
  {
    NodeOfWithNode(v, path, n);
    if path != [] {
      var c := ValueAt(v.fields, path[0]);
      WithNodeTwice(c, path[1..], n, m);
      PutTwice(v.fields, path[0], WithNode(c, path[1..], n), WithNode(c, path[1..], m));
    }
  }

  // ---- Near trees ----

  /** The trees agree, except below the given paths; `path` is where they stand themselves. */
  predicate Near(a: Value, b: Value, path: Path, dirty: set<Path>)
    decreases a
  {
    path in dirty || a == b || (a.Obj? && b.Obj? && NearFields(a.fields, b.fields, path, dirty))
  }

  predicate NearFields(f: Fields, g: Fields, path: Path, dirty: set<Path>)
    decreases f
  {
    if f.End? || g.End? then f.End? && g.End?
    else
      && f.key == g.key && !HasKey(f.rest, f.key) && !HasKey(g.rest, f.key)
      && Near(f.value, g.value, path + [f.key], dirty) && NearFields(f.rest, g.rest, path, dirty)
  }

  lemma {:induction false} NearFieldsOfSame(f: Fields, path: Path, dirty: set<Path>)
    requires FieldsPrintable(f)
    ensures NearFields(f, f, path, dirty)
  {
    if f.Field? {
      NearFieldsOfSame(f.rest, path, dirty);
    }
  }

  /** Without dirty paths near trees are equal. */
  lemma {:induction false} NearIsEqual(a: Value, b: Value, path: Path)
    requires Near(a, b, path, {})
    ensures a == b
    decreases a
  {
    if a != b {
      NearFieldsIsEqual(a.fields, b.fields, path);
    }
  }

  lemma {:induction false} NearFieldsIsEqual(f: Fields, g: Fields, path: Path)
    requires NearFields(f, g, path, {})
    ensures f == g
    decreases f
  {
    if f.Field? {
      NearIsEqual(f.value, g.value, path + [f.key]);
      NearFieldsIsEqual(f.rest, g.rest, path);
    }
  }

  predicate Under(top: Path, p: Path) { top <= p }

  /** Nearness depends only on the dirty paths below. */
  lemma {:induction false} NearLocal(a: Value, b: Value, path: Path, dirty: set<Path>, dirty': set<Path>)
    requires Near(a, b, path, dirty)
    requires forall d :: d in dirty && Under(path, d) ==> d in dirty'
    ensures Near(a, b, path, dirty')
    decreases a, 1
  {
    if path !in dirty && a != b {
      NearFieldsLocal(a.fields, b.fields, path, dirty, dirty');
    }
  }

  lemma {:induction false} NearFieldsLocal(f: Fields, g: Fields, path: Path, dirty: set<Path>, dirty': set<Path>)
    requires NearFields(f, g, path, dirty)
    requires forall d :: d in dirty && Under(path, d) ==> d in dirty'
    ensures NearFields(f, g, path, dirty')
    decreases f, 0
  {
    if f.Field? {
      NearLocal(f.value, g.value, path + [f.key], dirty, dirty');
      NearFieldsLocal(f.rest, g.rest, path, dirty, dirty');
    }
  }

  /** All that is dirty elsewhere stays dirty. */
  predicate KeepsOutside(top: Path, dirty: set<Path>, dirty': set<Path>)
  {
    forall d :: d in dirty && !Under(top, d) ==> d in dirty'
  }

  lemma SiblingIsOutside(path: Path, key: string, other: string, dirty: set<Path>, dirty': set<Path>)
    requires KeepsOutside(path + [key], dirty, dirty') && key != other
    ensures forall d :: d in dirty && Under(path + [other], d) ==> d in dirty'
  {
    forall d | d in dirty && Under(path + [other], d) ensures d in dirty' {
      assert d[|path|] == (path + [other])[|path|] == other;
    }
  }

  lemma {:induction false} NearFieldsElsewhere(
    f: Fields, g: Fields, path: Path, key: string, dirty: set<Path>, dirty': set<Path>)
    requires NearFields(f, g, path, dirty) && !HasKey(f, key) && KeepsOutside(path + [key], dirty, dirty')
    ensures NearFields(f, g, path, dirty')
  {
    if f.Field? {
      SiblingIsOutside(path, key, f.key, dirty, dirty');
      NearLocal(f.value, g.value, path + [f.key], dirty, dirty');
      NearFieldsElsewhere(f.rest, g.rest, path, key, dirty, dirty');
    }
  }

  lemma {:induction false} NearFieldsKeys(f: Fields, g: Fields, path: Path, dirty: set<Path>, key: string)
    requires NearFields(f, g, path, dirty)
    ensures HasKey(f, key) <==> HasKey(g, key)
    ensures HasKey(f, key) ==> Near(ValueAt(f, key), ValueAt(g, key), path + [key], dirty)
  {
    if f.Field? && f.key != key {
      NearFieldsKeys(f.rest, g.rest, path, dirty, key);
    }
  }

  lemma {:induction false} NearFieldsPut(
    f: Fields, g: Fields, path: Path, key: string, v: Value, w: Value, dirty: set<Path>, dirty': set<Path>)
    requires NearFields(f, g, path, dirty) && Near(v, w, path + [key], dirty')
    requires KeepsOutside(path + [key], dirty, dirty')
    ensures NearFields(Put(f, key, v), Put(g, key, w), path, dirty')
  {
    hide KeepsOutside, Under;
    if f.Field? {
      if f.key == key {
        NearFieldsElsewhere(f.rest, g.rest, path, key, dirty, dirty');
      } else {
        SiblingIsOutside(path, key, f.key, dirty, dirty');
        NearLocal(f.value, g.value, path + [f.key], dirty, dirty');
        NearFieldsPut(f.rest, g.rest, path, key, v, w, dirty, dirty');
      }
    }
  }

  lemma {:induction false} NearFieldsWithout(
    f: Fields, g: Fields, path: Path, key: string, dirty: set<Path>, dirty': set<Path>)
    requires NearFields(f, g, path, dirty) && KeepsOutside(path + [key], dirty, dirty')
    ensures NearFields(Without(f, key), Without(g, key), path, dirty')
    ensures forall k :: HasKey(Without(f, key), k) ==> HasKey(f, k)
    ensures forall k :: HasKey(Without(g, key), k) ==> HasKey(g, k)
  {
    hide KeepsOutside, Under;
    if f.Field? {
      if f.key == key {
        NearFieldsElsewhere(f.rest, g.rest, path, key, dirty, dirty');
      } else {
        SiblingIsOutside(path, key, f.key, dirty, dirty');
        NearLocal(f.value, g.value, path + [f.key], dirty, dirty');
        NearFieldsWithout(f.rest, g.rest, path, key, dirty, dirty');
      }
    }
  }

  /** No path strictly above is dirty. */
  predicate Reaches(path: Path, p: Path, dirty: set<Path>)
    decreases |p|
  {
    p == [] || (path !in dirty && Reaches(path + [p[0]], p[1..], dirty))
  }

  lemma DictsAreNear(a: Value, b: Value, path: Path, dirty: set<Path>)
    requires Near(a, b, path, dirty) && path !in dirty && a.Obj? && Printable(a)
    ensures b.Obj? && NearFields(a.fields, b.fields, path, dirty)
  {
    if a == b {
      NearFieldsOfSame(a.fields, path, dirty);
    }
  }

  lemma {:induction false} NearNode(a: Value, b: Value, path: Path, p: Path, dirty: set<Path>)
    requires Near(a, b, path, dirty) && Node(a, p).Some? && Reaches(path, p, dirty) && Printable(a)
    ensures Node(b, p).Some? && Near(Node(a, p).value, Node(b, p).value, path + p, dirty)
    decreases |p|
  {
    if p == [] {
      assert path + p == path;
    } else {
      DictsAreNear(a, b, path, dirty);
      NearFieldsKeys(a.fields, b.fields, path, dirty, p[0]);
      FieldPrintable(a.fields, p[0]);
      NearNode(ValueAt(a.fields, p[0]), ValueAt(b.fields, p[0]), path + [p[0]], p[1..], dirty);
      assert path + [p[0]] + p[1..] == path + p;
    }
  }

  lemma KeepsOutsideAbove(path: Path, p: Path, dirty: set<Path>, dirty': set<Path>)
    requires p != [] && KeepsOutside(path + p, dirty, dirty')
    ensures KeepsOutside(path + [p[0]], dirty, dirty')
  {
    forall d | d in dirty && Under(path + p, d) ensures Under(path + [p[0]], d) {
      assert path + p == (path + [p[0]]) + p[1..];
    }
  }

  /** Replacing near nodes in near trees. */
  lemma {:induction false} NearWithNode(
    a: Value, b: Value, path: Path, p: Path, n: Value, m: Value, dirty: set<Path>, dirty': set<Path>)
    requires Near(a, b, path, dirty) && Node(a, p).Some? && Node(b, p).Some? && Reaches(path, p, dirty) && Printable(a)
    requires Near(n, m, path + p, dirty') && KeepsOutside(path + p, dirty, dirty')
    ensures Near(WithNode(a, p, n), WithNode(b, p, m), path, dirty')
    decreases |p|
  {
    if p == [] {
      assert path + p == path;
    } else {
      var x, y := ValueAt(a.fields, p[0]), ValueAt(b.fields, p[0]);
      DictsAreNear(a, b, path, dirty);
      NearFieldsKeys(a.fields, b.fields, path, dirty, p[0]);
      FieldPrintable(a.fields, p[0]);
      assert path + [p[0]] + p[1..] == path + p;
      NearWithNode(x, y, path + [p[0]], p[1..], n, m, dirty, dirty');
      KeepsOutsideAbove(path, p, dirty, dirty');
      NearFieldsPut(a.fields, b.fields, path, p[0], WithNode(x, p[1..], n), WithNode(y, p[1..], m), dirty, dirty');
    }
  }
}
