/** The journaled database: tracked edits of the live tree, and the storage it is written to. */
module JsonDb {
  import opened Common
  import opened Decimal
  import opened Json
  import opened JsonPatch
  import opened JsonTree
  import opened Journal

  // ---- What the records so far stand for ----

  /** The stored snapshot and records, the records still pending, the tree all of them lead to, and the paths of the
      objects that were changed in place since. */
  datatype Book = Book(snapshot: Value, stored: seq<Patch>, unsaved: seq<Patch>, seen: Value, dirty: set<Path>)

  predicate Tracks(b: Book, data: Value)
  {
    && data.Obj? && Printable(data)
    && b.snapshot.Obj? && Printable(b.snapshot)
    && AllPatchesOk(b.stored) && AllPatchesOk(b.unsaved)
    && Replay(b.snapshot, b.stored + b.unsaved) == Ok(b.seen)
    && Near(data, b.seen, [], b.dirty)
  }

  /** No object on the way to a container, nor the container itself, was changed in place. */
  predicate Tracked(p: Path, dirty: set<Path>)
  {
    Reaches([], p, dirty) && p !in dirty
  }

  /** The dirty paths that an edit at a path leaves. */
  function Cleaned(dirty: set<Path>, top: Path): set<Path>
  {
    set d | d in dirty && !Under(top, d)
  }

  function Record(b: Book, patch: Patch, seen: Value, dirty: set<Path>): Book
  {
    b.(unsaved := b.unsaved + [patch], seen := seen, dirty := dirty)
  }

  lemma {:induction false} AllPatchesOkAppend(a: seq<Patch>, b: seq<Patch>)
    requires AllPatchesOk(a) && AllPatchesOk(b)
    ensures AllPatchesOk(a + b)
  {
    if a == [] {
      assert a + b == b;
    } else {
      assert (a + b)[1..] == a[1..] + b;
      AllPatchesOkAppend(a[1..], b);
    }
  }

  lemma RecordTracks(b: Book, data: Value, patch: Patch, data': Value, seen: Value, dirty: set<Path>)
    requires Tracks(b, data) && PatchOk(patch) && data'.Obj? && Printable(data')
    requires Edit(b.seen, patch.path, patch.op) == Ok(seen) && Near(data', seen, [], dirty)
    ensures Tracks(Record(b, patch, seen, dirty), data')
  {
    hide Near, Edit, Printable, PatchOk;
    assert AllPatchesOk([patch]);
    AllPatchesOkAppend(b.unsaved, [patch]);
    assert b.stored + (b.unsaved + [patch]) == b.stored + b.unsaved + [patch];
    ReplayAppend(b.snapshot, b.stored + b.unsaved, [patch]);
    assert Replay(b.seen, [patch]) == Ok(seen) by {
      assert [patch][1..] == [];
    }
  }

  lemma {:induction false} PlainPathAppend(p: Path, key: string)
    requires PlainPath(p) && PlainKey(key)
    ensures PlainPath(p + [key])
    decreases |p|
  {
    if p == [] {
      assert p + [key] == [key];
    } else {
      assert (p + [key])[1..] == p[1..] + [key];
      PlainPathAppend(p[1..], key);
    }
  }

  /** The dictionaries at a tracked path have the same keys and near values. */
  lemma DictsAtAreNear(data: Value, seen: Value, p: Path, dirty: set<Path>)
    requires Near(data, seen, [], dirty) && Printable(data) && Tracked(p, dirty) && IsDict(data, p)
    ensures IsDict(seen, p) && NearFields(DictAt(data, p), DictAt(seen, p), p, dirty)
    ensures FieldsPrintable(DictAt(data, p))
  {
    hide Near, NearFields, Reaches, Node;
    NearNode(data, seen, [], p, dirty);
    assert [] + p == p;
    NodePrintable(data, p);
    DictsAreNear(Node(data, p).value, Node(seen, p).value, p, dirty);
  }

  lemma CleanedKeeps(dirty: set<Path>, top: Path)
    ensures KeepsOutside(top, dirty, Cleaned(dirty, top))
  {
  }

  /** Both trees with near dictionaries put at a tracked path. */
  lemma NearDictsPut(
    data: Value, seen: Value, p: Path, key: string, f: Fields, g: Fields, dirty: set<Path>, dirty': set<Path>)
    requires Near(data, seen, [], dirty) && Printable(data) && Tracked(p, dirty) && IsDict(data, p) && IsDict(seen, p)
    requires NearFields(f, g, p, dirty') && KeepsOutside(p + [key], dirty, dirty')
    ensures Near(WithNode(data, p, Obj(f)), WithNode(seen, p, Obj(g)), [], dirty')
  {
    hide NearFields, Reaches, Node, WithNode;
    assert [] + p == p;
    forall d | d in dirty && !Under(p, d) ensures d in dirty' {
      assert !Under(p + [key], d) by {
        assert p <= p + [key];
      }
    }
    NearWithNode(data, seen, [], p, Obj(f), Obj(g), dirty, dirty');
  }

  lemma WithNodeIsObj(v: Value, p: Path, n: Value)
    requires v.Obj? && Node(v, p).Some? && (p == [] ==> n.Obj?)
    ensures WithNode(v, p, n).Obj?
  {
  }

  // ---- StoredDict, StoredObject and StoredList ----

  /** Setting a key of a tracked dictionary or attribute of a tracked object, recorded as add or replace. */
  lemma SetTracks(b: Book, data: Value, p: Path, key: string, v: Value)
    requires Tracks(b, data) && Tracked(p, b.dirty) && IsDict(data, p)
    requires PlainPath(p) && PlainKey(key) && Printable(v)
    ensures var op := if HasKey(DictAt(data, p), key) then Replace(v) else Add(v);
            IsDict(b.seen, p)
            && Tracks(Record(b, Patch(p + [key], op), SetIn(b.seen, p, key, v), Cleaned(b.dirty, p + [key])),
                      SetIn(data, p, key, v))
  {
    hide Near, NearFields, Reaches, Node, WithNode, KeepsOutside, Put, Printable, PlainPath, Edit, Replay,
         AllPatchesOk, Under;
    var dirty' := Cleaned(b.dirty, p + [key]);
    DictsAtAreNear(data, b.seen, p, b.dirty);
    var f, g := DictAt(data, p), DictAt(b.seen, p);
    NearFieldsKeys(f, g, p, b.dirty, key);
    CleanedKeeps(b.dirty, p + [key]);
    NearOfSame(v, p + [key], dirty');
    NearFieldsPut(f, g, p, key, v, v, b.dirty, dirty');
    NearDictsPut(data, b.seen, p, key, Put(f, key, v), Put(g, key, v), b.dirty, dirty');
    var op := if HasKey(f, key) then Replace(v) else Add(v);
    EditAtNode(b.seen, p, key, op);
    PlainPathAppend(p, key);
    PutPrintable(f, key, v);
    ObjPrintable(Put(f, key, v));
    WithNodePrintable(data, p, Obj(Put(f, key, v)));
    WithNodeIsObj(data, p, Obj(Put(f, key, v)));
    RecordTracks(b, data, Patch(p + [key], op), SetIn(data, p, key, v), SetIn(b.seen, p, key, v), dirty');
  }

  lemma NearOfSame(v: Value, path: Path, dirty: set<Path>)
    ensures Near(v, v, path, dirty)
  {
  }

  lemma ObjPrintable(f: Fields)
    requires FieldsPrintable(f)
    ensures Printable(Obj(f))
  {
  }

  lemma PopTracks(b: Book, data: Value, p: Path, key: string)
    requires Tracks(b, data) && Tracked(p, b.dirty) && IsDict(data, p) && HasKey(DictAt(data, p), key)
    requires PlainPath(p) && PlainKey(key)
    ensures IsDict(b.seen, p)
            && Tracks(Record(b, Patch(p + [key], Remove), PopIn(b.seen, p, key), Cleaned(b.dirty, p + [key])),
                      PopIn(data, p, key))
  {
    hide Near, NearFields, Reaches, Node, WithNode, KeepsOutside, Without, Printable, PlainPath, Edit, Replay,
         AllPatchesOk, Under;
    var dirty' := Cleaned(b.dirty, p + [key]);
    DictsAtAreNear(data, b.seen, p, b.dirty);
    var f, g := DictAt(data, p), DictAt(b.seen, p);
    NearFieldsKeys(f, g, p, b.dirty, key);
    CleanedKeeps(b.dirty, p + [key]);
    NearFieldsWithout(f, g, p, key, b.dirty, dirty');
    NearDictsPut(data, b.seen, p, key, Without(f, key), Without(g, key), b.dirty, dirty');
    EditAtNode(b.seen, p, key, Remove);
    PlainPathAppend(p, key);
    WithoutPrintable(f, key);
    ObjPrintable(Without(f, key));
    WithNodePrintable(data, p, Obj(Without(f, key)));
    WithNodeIsObj(data, p, Obj(Without(f, key)));
    RecordTracks(b, data, Patch(p + [key], Remove), PopIn(data, p, key), PopIn(b.seen, p, key), dirty');
  }

  /** A list at a tracked path is the same in both trees. */
  lemma ListsAtAreSame(data: Value, seen: Value, p: Path, dirty: set<Path>)
    requires Near(data, seen, [], dirty) && Printable(data) && Tracked(p, dirty) && IsList(data, p)
    ensures Node(seen, p) == Node(data, p)
  {
    hide NearFields, Reaches, Node;
    NearNode(data, seen, [], p, dirty);
    assert [] + p == p;
  }

  lemma NatTextIsPlainKey(n: nat)
    ensures PlainKey(NatText(n)) && NatText(n) != "-"
  {
    assert forall i :: 0 <= i < |NatText(n)| ==> IsDigit(NatText(n)[i]);
  }

  /** An edit of a tracked list, recorded at one of its indices. */
  lemma ListEditTracks(b: Book, data: Value, p: Path, n: nat, op: Op, xs: Items)
    requires Tracks(b, data) && Tracked(p, b.dirty) && IsList(data, p) && PlainPath(p)
    requires EditItem(ListAt(data, p), NatText(n), op) == Ok(xs) && OpPrintable(op) && AllPrintable(xs)
    ensures IsList(b.seen, p)
            && Tracks(Record(b, Patch(p + [NatText(n)], op), WithNode(b.seen, p, Arr(xs)), b.dirty),
                      WithNode(data, p, Arr(xs)))
  {
    hide Near, Reaches, WithNode, Printable, PlainPath, PlainKey, EditItem, Replay, AllPatchesOk, Edit, Under;
    ListsAtAreSame(data, b.seen, p, b.dirty);
    NearOfSame(Arr(xs), p, b.dirty);
    assert [] + p == p;
    NearWithNode(data, b.seen, [], p, Arr(xs), Arr(xs), b.dirty, b.dirty);
    EditAtNode(b.seen, p, NatText(n), op);
    NatTextIsPlainKey(n);
    PlainPathAppend(p, NatText(n));
    assert Printable(Arr(xs)) by {
      ArrPrintable(xs);
    }
    WithNodePrintable(data, p, Arr(xs));
    WithNodeIsObj(data, p, Arr(xs));
    RecordTracks(b, data, Patch(p + [NatText(n)], op), WithNode(data, p, Arr(xs)), WithNode(b.seen, p, Arr(xs)),
                 b.dirty);
  }

  lemma ArrPrintable(xs: Items)
    requires AllPrintable(xs)
    ensures Printable(Arr(xs))
  {
  }

  /** An object changed in place, without a record. */
  lemma InPlaceTracks(b: Book, data: Value, p: Path, n: Value)
    requires Tracks(b, data) && p != [] && Reaches([], p, b.dirty) && Node(data, p).Some? && Printable(n)
    ensures Tracks(b.(dirty := b.dirty + {p}), WithNode(data, p, n))
  {
    hide NearFields, Reaches, WithNode, Printable, Replay, AllPatchesOk, Node, Under;
    var dirty' := b.dirty + {p};
    NearNode(data, b.seen, [], p, b.dirty);
    assert [] + p == p;
    var m := Node(b.seen, p).value;
    NearWithNode(data, b.seen, [], p, n, m, b.dirty, dirty');
    WithSameNode(b.seen, p);
    WithNodePrintable(data, p, n);
    WithNodeIsObj(data, p, n);
  }

  /** An attribute that is set to an equal value in Python's sense, without a record. */
  lemma SilentSetTracks(b: Book, data: Value, p: Path, key: string, v: Value)
    requires Tracks(b, data) && Tracked(p, b.dirty) && IsDict(data, p) && HasKey(DictAt(data, p), key)
    requires Printable(v)
    ensures Tracks(b.(dirty := b.dirty + {p + [key]}), SetIn(data, p, key, v))
  {
    hide NearFields, Reaches, Node, WithNode, Put, Printable, Replay, AllPatchesOk, Under;
    var dirty' := b.dirty + {p + [key]};
    DictsAtAreNear(data, b.seen, p, b.dirty);
    var f, g := DictAt(data, p), DictAt(b.seen, p);
    NearFieldsKeys(f, g, p, b.dirty, key);
    NearFieldsPut(f, g, p, key, v, ValueAt(g, key), b.dirty, dirty');
    PutSame(g, key);
    NearDictsPut(data, b.seen, p, key, Put(f, key, v), g, b.dirty, dirty');
    WithSameNode(b.seen, p);
    PutPrintable(f, key, v);
    ObjPrintable(Put(f, key, v));
    WithNodePrintable(data, p, Obj(Put(f, key, v)));
    WithNodeIsObj(data, p, Obj(Put(f, key, v)));
  }

  lemma {:induction false} ReplayPrintable(doc: Value, ps: seq<Patch>)
    requires doc.Obj? && Printable(doc) && AllPatchesOk(ps)
    ensures Replay(doc, ps).Ok? ==> Replay(doc, ps).value.Obj? && Printable(Replay(doc, ps).value)
    decreases |ps|
  {
    hide Edit;
    if ps != [] {
      EditPrintable(doc, ps[0].path, ps[0].op);
      if Edit(doc, ps[0].path, ps[0].op).Ok? {
        ReplayPrintable(Edit(doc, ps[0].path, ps[0].op).value, ps[1..]);
      }
    }
  }

  // ---- Writing ----

  /** The pending records as text. */
  function Texts(ps: seq<Patch>): seq<string>
    requires AllPatchesOk(ps)
  {
    if ps == [] then [] else [Print(PatchValue(ps[0]))] + Texts(ps[1..])
  }

  /** ''.join(',\n' + x for x in pending) */
  function Joined(texts: seq<string>): string
  {
    if texts == [] then "" else SEPARATOR + (texts[0] + Joined(texts[1..]))
  }

  /** The book once the pending records are stored. */
  function Saved(b: Book): Book { b.(stored := b.stored + b.unsaved, unsaved := []) }

  lemma SavedTracks(b: Book, data: Value)
    requires Tracks(b, data)
    ensures Tracks(Saved(b), data)
  {
    hide Near, Replay;
    AllPatchesOkAppend(b.stored, b.unsaved);
    assert b.stored + b.unsaved + [] == b.stored + b.unsaved;
  }

  lemma {:induction false} TextsAppend(a: seq<Patch>, p: Patch)
    requires AllPatchesOk(a) && PatchOk(p)
    ensures AllPatchesOk(a + [p]) && Texts(a + [p]) == Texts(a) + [Print(PatchValue(p))]
  {
    hide PatchOk, Print, PatchValue;
    assert [p][1..] == [];
    if a == [] {
      assert a + [p] == [p];
    } else {
      TextsAppend(a[1..], p);
      assert (a + [p])[1..] == a[1..] + [p];
    }
  }

  lemma {:induction false} JoinedTexts(ps: seq<Patch>)
    requires AllPatchesOk(ps)
    ensures Joined(Texts(ps)) == Appended(PatchValues(ps))
  {
    hide PatchOk, Print, PatchValue;
    if ps != [] {
      JoinedTexts(ps[1..]);
      assert Texts(ps)[1..] == Texts(ps[1..]);
    }
  }

  lemma {:induction false} AppendedAppend(a: seq<Patch>, b: seq<Patch>)
    requires AllPatchesOk(a) && AllPatchesOk(b)
    ensures AllPatchesOk(a + b) && Appended(PatchValues(a + b)) == Appended(PatchValues(a)) + Appended(PatchValues(b))
  {
    hide PatchOk, Print, PatchValue;
    AllPatchesOkAppend(a, b);
    if a == [] {
      assert a + b == b;
    } else {
      assert (a + b)[1..] == a[1..] + b;
      AppendedAppend(a[1..], b);
    }
  }

  /** The stored text with the pending records behind it is the journal of both, and loads as the tree they lead to. */
  lemma TextLoadsAsSeen(b: Book, data: Value)
    requires Tracks(b, data)
    ensures AllPatchesOk(b.stored + b.unsaved)
    ensures JournalText(b.snapshot, b.stored) + Joined(Texts(b.unsaved)) ==
            JournalText(b.snapshot, b.stored + b.unsaved)
    ensures LoadData(JournalText(b.snapshot, b.stored) + Joined(Texts(b.unsaved))) == Ok(b.seen)
  {
    hide Near, LoadData, Replay, Appended, PatchValues, Joined, Texts, Print;
    AppendedAppend(b.stored, b.unsaved);
    JoinedTexts(b.unsaved);
    LoadOfJournal(b.snapshot, b.stored + b.unsaved);
  }
}
