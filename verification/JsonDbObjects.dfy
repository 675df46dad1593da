/** The storage and the database as objects, and what each of their methods does to both the live tree and the
    stored text. */
module JsonDbObjects {
  import opened Common
  import opened Decimal
  import opened Json
  import opened JsonPatch
  import opened JsonTree
  import opened Journal
  import opened JsonDb

  /** CLNStorage over one entry of the node's datastore. */
  class CLNStorage {
    var entry: string        // what the datastore holds
    var raw: string          // what was last fetched or written as a whole
    var pos: nat
    var initPos: nat

    predicate Valid()
      reads this
    {
      pos == |entry| && initPos == |raw| && raw <= entry
    }

    /** __init__: fetch the entry. */
    constructor (stored: string)
      ensures Valid() && entry == stored && raw == stored
    {
      entry, raw := stored, stored;
      pos, initPos := |stored|, |stored|;
    }

    method Write(data: string)
      modifies this
      ensures Valid() && entry == data && raw == data
    {
      entry := data;
      initPos := |data|;
      pos := initPos;
      raw := data;
    }

    method Append(data: string)
      requires Valid()
      modifies this
      ensures Valid() && entry == old(entry) + data && raw == old(raw)
    {
      entry := entry + data;
      pos := pos + |data|;
    }

    /** The appended records outweigh the snapshot. */
    method NeedsConsolidation() returns (b: bool)
      requires Valid()
      ensures b <==> |entry| - |raw| > |raw|
    {
      b := pos > 2 * initPos;
    }
  }

  class JsonDB {
    var data: Value
    var pending: seq<string>
    var modified: bool
    const storage: CLNStorage
    ghost var book: Book

    ghost predicate Valid()
      reads this, storage
    {
      && storage.Valid()
      && Tracks(book, data)
      && storage.entry == JournalText(book.snapshot, book.stored)
      && pending == Texts(book.unsaved)
      && (pending != [] ==> modified)
    }

    /** The live tree is what the stored text, with the pending records behind it, loads as. */
    ghost predicate Agrees()
      reads this, storage
    {
      LoadData(storage.entry + Joined(pending)) == Ok(data)
    }

    /** __init__ on an entry that holds a snapshot and records that apply to it. */
    constructor (storage: CLNStorage, ghost snapshot: Value, ghost records: seq<Patch>)
      requires storage.Valid() && storage.raw == storage.entry
      requires snapshot.Obj? && Printable(snapshot) && AllPatchesOk(records)
      requires storage.entry == JournalText(snapshot, records)
      requires Replay(snapshot, records).Ok?
      ensures this.storage == storage && Valid() && Agrees()
      ensures pending == [] && book.dirty == {} && Ok(data) == Replay(snapshot, records)
    {
      LoadOfJournal(snapshot, records);
      ReplayPrintable(snapshot, records);
      var loaded := LoadData(storage.raw);
      data := loaded.value;
      pending := [];
      modified := HadRecords(storage.raw);
      this.storage := storage;
      book := Book(snapshot, records, [], loaded.value, {});
      new;
      assert records + [] == records;
      assert storage.entry + Joined(pending) == storage.entry;
    }

    /** A database without dirty objects agrees with its stored form. */
    lemma CleanAgrees()
      requires Valid()
      ensures LoadData(storage.entry + Joined(pending)) == Ok(book.seen)
      ensures book.dirty == {} ==> Agrees() && data == book.seen
    {
      TextLoadsAsSeen(book, data);
      hide LoadData, Replay;
      if book.dirty == {} {
        NearIsEqual(data, book.seen, []);
      }
    }

    /** JsonDB.add_patch */
    method AddPatch(patch: Patch)
      requires PatchOk(patch)
      modifies this
      ensures data == old(data) && book == old(book)
      ensures pending == old(pending) + [Print(PatchValue(patch))] && modified
    {
      pending := pending + [Print(PatchValue(patch))];
      modified := true;
    }

    /** StoredDict.__setitem__ on the dictionary at p: a value with the same text is not set again. */
    method SetItem(p: Path, key: string, v: Value)
      requires Valid() && IsDict(data, p) && Tracked(p, book.dirty)
      requires PlainPath(p) && PlainKey(key) && Printable(v)
      modifies this
      ensures Valid() && data == SetIn(old(data), p, key, v)
      ensures var same := HasKey(DictAt(old(data), p), key) && ValueAt(DictAt(old(data), p), key) == v;
              if same then book == old(book)
              else
                && book.dirty == Cleaned(old(book).dirty, p + [key])
                && IsDict(old(book).seen, p) && book.seen == SetIn(old(book).seen, p, key, v)
      ensures book.stored == old(book).stored && book.snapshot == old(book).snapshot
    {
      var f := DictAt(data, p);
      var isNew := !HasKey(f, key);
      NodePrintable(data, p);
      if !isNew {
        FieldPrintable(f, key);
        if Print(v) == Print(ValueAt(f, key)) {
          PrintIsInjective(v, ValueAt(f, key));
          PutSame(f, key);
          WithSameNode(data, p);
          return;
        }
      }
      var op := if isNew then Add(v) else Replace(v);
      SetTracks(book, data, p, key, v);
      PlainPathAppend(p, key);
      TextsAppend(book.unsaved, Patch(p + [key], op));
      hide Near, NearFields, Print, JournalText, Replay, Edit, Put, Printable, PlainPath, PlainKey;
      book := Record(book, Patch(p + [key], op), SetIn(book.seen, p, key, v), Cleaned(book.dirty, p + [key]));
      data := SetIn(data, p, key, v);
      AddPatch(Patch(p + [key], op));
    }

    /** StoredDict.pop for a key that is there. */
    method PopItem(p: Path, key: string) returns (v: Value)
      requires Valid() && IsDict(data, p) && Tracked(p, book.dirty) && HasKey(DictAt(data, p), key)
      requires PlainPath(p) && PlainKey(key)
      modifies this
      ensures Valid() && data == PopIn(old(data), p, key) && v == ValueAt(DictAt(old(data), p), key)
      ensures book.dirty == Cleaned(old(book).dirty, p + [key])
      ensures IsDict(old(book).seen, p) && book.seen == PopIn(old(book).seen, p, key)
      ensures book.stored == old(book).stored && book.snapshot == old(book).snapshot
    {
      v := ValueAt(DictAt(data, p), key);
      var patch := Patch(p + [key], Remove);
      PopTracks(book, data, p, key);
      PlainPathAppend(p, key);
      TextsAppend(book.unsaved, patch);
      hide Near, NearFields, Print, JournalText, Replay, Edit, Without, Printable, PlainPath, PlainKey;
      book := Record(book, patch, PopIn(book.seen, p, key), Cleaned(book.dirty, p + [key]));
      data := PopIn(data, p, key);
      AddPatch(patch);
    }

    /** StoredObject.__setattr__ on the object at p: an equal value in Python's sense is set without a record. */
    method SetAttribute(p: Path, key: string, v: Value)
      requires Valid() && IsDict(data, p) && Tracked(p, book.dirty) && HasKey(DictAt(data, p), key)
      requires PlainPath(p) && PlainKey(key) && Printable(v)
      modifies this
      ensures Valid() && data == SetIn(old(data), p, key, v)
      ensures var was := ValueAt(DictAt(old(data), p), key);
              && (was == v ==> book == old(book))
              && (!PyEqual(v, was) ==>
                    && book.dirty == Cleaned(old(book).dirty, p + [key])
                    && IsDict(old(book).seen, p) && book.seen == SetIn(old(book).seen, p, key, v))
              && (was != v && PyEqual(v, was) ==> book == old(book).(dirty := old(book).dirty + {p + [key]}))
    {
      var was := ValueAt(DictAt(data, p), key);
      PutSame(DictAt(data, p), key);
      WithSameNode(data, p);
      PyEqualRefl(v);
      if !PyEqual(v, was) {
        SetItem(p, key, v);
      } else if v != was {
        SilentSetTracks(book, data, p, key, v);
        hide Near, NearFields, Print, JournalText, Replay, Put, Printable, PlainPath;
        book := book.(dirty := book.dirty + {p + [key]});
        data := SetIn(data, p, key, v);
      }
    }

    /** StoredList.append */
    method AppendItem(p: Path, v: Value)
      requires Valid() && IsList(data, p) && Tracked(p, book.dirty) && PlainPath(p) && Printable(v)
      modifies this
      ensures Valid() && data == AppendIn(old(data), p, v) && book.dirty == old(book).dirty
    {
      var xs := ListAt(data, p);
      var n := Length(xs);
      var patch := Patch(p + [NatText(n)], Add(v));
      NatTextIsPlainKey(n);
      IndexOfText(n);
      SnocIsInsert(xs, v);
      NodePrintable(data, p);
      SnocPrintable(xs, v);
      ListEditTracks(book, data, p, n, Add(v), Snoc(xs, v));
      PlainPathAppend(p, NatText(n));
      TextsAppend(book.unsaved, patch);
      hide Near, NearFields, Print, JournalText, Replay, Edit, Printable, PlainPath, PlainKey;
      book := Record(book, patch, WithNode(book.seen, p, Arr(Snoc(xs, v))), book.dirty);
      data := AppendIn(data, p, v);
      AddPatch(patch);
    }

    /** StoredList.remove; false is the ValueError. */
    method RemoveItem(p: Path, v: Value) returns (ok: bool)
      requires Valid() && IsList(data, p) && Tracked(p, book.dirty) && PlainPath(p)
      modifies this
      ensures Valid() && book.dirty == old(book).dirty
      ensures ok <==> IndexIn(ListAt(old(data), p), v).Some?
      ensures data == if ok then RemoveIn(old(data), p, v) else old(data)
    {
      var xs := ListAt(data, p);
      match IndexIn(xs, v) {
        case None => return false;
        case Some(n) =>
          var patch := Patch(p + [NatText(n)], Remove);
          NatTextIsPlainKey(n);
          IndexOfText(n);
          RemoveFirstIsRemoved(xs, v);
          NodePrintable(data, p);
          RemoveFirstPrintable(xs, v);
          ListEditTracks(book, data, p, n, Remove, RemoveFirst(xs, v));
          PlainPathAppend(p, NatText(n));
          TextsAppend(book.unsaved, patch);
          hide Near, NearFields, Print, JournalText, Replay, Edit, Printable, PlainPath, PlainKey;
          book := Record(book, patch, WithNode(book.seen, p, Arr(RemoveFirst(xs, v))), book.dirty);
          data := RemoveIn(data, p, v);
          AddPatch(patch);
          return true;
      }
    }

    /** A change of an object at p that the database does not see. */
    method ChangeInPlace(p: Path, v: Value)
      requires Valid() && p != [] && Reaches([], p, book.dirty) && Node(data, p).Some? && Printable(v)
      modifies this
      ensures Valid() && data == WithNode(old(data), p, v)
      ensures book == old(book).(dirty := old(book).dirty + {p})
      ensures pending == old(pending)
    {
      InPlaceTracks(book, data, p, v);
      hide Near, NearFields, Print, JournalText, Replay, Printable, WithNode;
      book := book.(dirty := book.dirty + {p});
      data := WithNode(data, p, v);
    }

    /** _append_pending_changes */
    method AppendPendingChanges()
      requires Valid()
      modifies this, storage
      ensures Valid() && data == old(data) && pending == []
      ensures book.seen == old(book).seen && book.dirty == old(book).dirty
      ensures storage.entry == old(storage.entry) + Joined(old(pending))
    {
      TextLoadsAsSeen(book, data);
      hide Tracks, Print, LoadData, PatchValue, PatchValues, Appended;
      if pending == [] {
        return;
      }
      var text := "";
      ghost var all := pending;
      for i := 0 to |pending|
        invariant pending == all && text == Joined(all[..i])
        modifies {}
      {
        JoinedSnoc(all[..i], all[i]);
        assert all[..i + 1] == all[..i] + [all[i]];
        text := text + (SEPARATOR + pending[i]);
      }
      assert all[..|all|] == all;
      storage.Append(text);
      pending := [];
      SavedTracks(book, data);
      book := Saved(book);
    }

    /** write_and_force_consolidation */
    method WriteAndForceConsolidation()
      requires Valid()
      modifies this, storage
      ensures Valid() && data == old(data) && pending == []
      ensures !old(modified) ==> storage.entry == old(storage.entry) && book == old(book)
      ensures old(modified) ==> storage.entry == Print(data) && book == Book(data, [], [], data, {})
    {
      if !modified {
        return;
      }
      storage.Write(Print(data));
      pending := [];
      modified := false;
      book := Book(data, [], [], data, {});
      ghost var none: seq<Patch> := [];
      assert none + none == none;
      assert JournalText(data, []) == Print(data);
    }

    /** The next write replaces the text by a snapshot of the live tree. */
    predicate Consolidates()
      reads this, storage
    {
      |storage.entry| > 2 * |storage.raw| && modified
    }

    /** JsonDB.write: afterwards the stored text alone loads as the tree that was recorded, and as the live tree when
        nothing was changed in place. */
    method Write()
      requires Valid()
      modifies this, storage
      ensures Valid() && data == old(data) && pending == []
      ensures LoadData(storage.entry) == Ok(book.seen)
      ensures book.dirty == {} ==> LoadData(storage.entry) == Ok(data)
      ensures if old(Consolidates()) then book.seen == data && book.dirty == {}
              else book.seen == old(book).seen && book.dirty == old(book).dirty
    {
      var consolidate := storage.NeedsConsolidation();
      if consolidate {
        WriteAndForceConsolidation();
      } else {
        AppendPendingChanges();
      }
      CleanAgrees();
      hide LoadData, Tracks;
      assert storage.entry + Joined(pending) == storage.entry;
    }

    /** CLNLightning.update_invoice: the object at p + [key] is popped, set again and written, which makes whatever
        was changed in it durable. */
    method Update(p: Path, key: string)
      requires Valid() && IsDict(data, p) && Tracked(p, book.dirty) && HasKey(DictAt(data, p), key)
      requires PlainPath(p) && PlainKey(key)
      modifies this, storage
      ensures Valid() && pending == []
      ensures data == Reinserted(old(data), p, key)
      ensures book.dirty <= Cleaned(old(book).dirty, p + [key])
      ensures (forall d :: d in old(book).dirty ==> Under(p + [key], d)) ==> LoadData(storage.entry) == Ok(data)
    {
      NodePrintable(data, p);
      FieldPrintable(DictAt(data, p), key);
      WithoutPrintable(DictAt(data, p), key);
      var f := DictAt(data, p);
      WithNodeTwice(data, p, Obj(Without(f, key)), Obj(Put(Without(f, key), key, ValueAt(f, key))));
      CleanedTracked(book.dirty, p, key);
      hide Tracks, LoadData, Print, Printable, FieldsPrintable, PlainPath, PlainKey, WithNode, Node, Tracked,
           JournalText;
      var v := PopItem(p, key);
      SetItem(p, key, v);
      Write();
    }
  }

  lemma {:induction false} ReachesLess(path: Path, p: Path, dirty: set<Path>, dirty': set<Path>)
    requires Reaches(path, p, dirty) && dirty' <= dirty
    ensures Reaches(path, p, dirty')
    decreases |p|
  {
    if p != [] {
      ReachesLess(path + [p[0]], p[1..], dirty, dirty');
    }
  }

  lemma CleanedTracked(dirty: set<Path>, p: Path, key: string)
    requires Tracked(p, dirty)
    ensures Tracked(p, Cleaned(dirty, p + [key]))
            && Cleaned(Cleaned(dirty, p + [key]), p + [key]) == Cleaned(dirty, p + [key])
  {
    ReachesLess([], p, dirty, Cleaned(dirty, p + [key]));
  }

  lemma {:induction false} JoinedSnoc(texts: seq<string>, t: string)
    ensures Joined(texts + [t]) == Joined(texts) + (SEPARATOR + t)
  {
    if texts == [] {
      assert texts + [t] == [t];
    } else {
      assert (texts + [t])[1..] == texts[1..] + [t];
      JoinedSnoc(texts[1..], t);
    }
  }

  lemma PyEqualRefl(v: Value)
    requires Printable(v)
    ensures PyEqual(v, v)
  {
    match v {
      case Arr(xs) => ItemsPyEqualRefl(xs);
      case Obj(f) => FieldsPyEqualRefl(f, f);
      case _ =>
    }
  }

  lemma {:induction false} ItemsPyEqualRefl(xs: Items)
    requires AllPrintable(xs)
    ensures ItemsPyEqual(xs, xs)
  {
    if xs.Cons? {
      PyEqualRefl(xs.head);
      ItemsPyEqualRefl(xs.tail);
    }
  }

  /** The fields from f on inside the dictionary g. */
  predicate Within(f: Fields, g: Fields)
  {
    f.Field? ==> HasKey(g, f.key) && ValueAt(g, f.key) == f.value && Within(f.rest, g)
  }

  lemma {:induction false} WithinMore(f: Fields, g: Fields, key: string, v: Value)
    requires Within(f, g) && !HasKey(f, key)
    ensures Within(f, Field(key, v, g))
  {
    if f.Field? {
      WithinMore(f.rest, g, key, v);
    }
  }

  lemma {:induction false} WithinItself(f: Fields)
    requires FieldsPrintable(f)
    ensures Within(f, f)
  {
    if f.Field? {
      WithinItself(f.rest);
      WithinMore(f.rest, f.rest, f.key, f.value);
    }
  }

  lemma {:induction false} WithinPyEqual(f: Fields, g: Fields)
    requires FieldsPrintable(f) && Within(f, g)
    ensures FieldsPyEqual(f, g)
    decreases f, 0
  {
    if f.Field? {
      PyEqualRefl(f.value);
      WithinPyEqual(f.rest, g);
    }
  }

  lemma FieldsPyEqualRefl(f: Fields, g: Fields)
    requires f == g && FieldsPrintable(f)
    ensures FieldsPyEqual(f, g)
    decreases f, 1
  {
    WithinItself(f);
    WithinPyEqual(f, f);
  }

  /** Whether load_data found records behind the snapshot. */
  predicate HadRecords(s: string)
  {
    match Loads(Bracketed(s))
    case Ok(Arr(Cons(_, patches))) => patches.Cons?
    case _ => false
  }
}
