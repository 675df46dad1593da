/** The provider's database on top of the journaled JSON store: every operation that the run model has on its live,
    tracked and durable images is what the store does to its live tree, its recorded tree and its text. */
module ProviderStore {
  import opened Common
  import opened Invoices
  import opened Provider
  import opened Json
  import opened JsonPatch
  import opened JsonTree
  import opened Journal
  import opened JsonDb
  import opened JsonDbObjects
  import opened InvoiceJson
  import opened ProviderDoc

  class Store {
    const db: JsonDB
    const text: Bolt11 -> string

    /** The only objects changed in place are live invoices. */
    ghost predicate OnlyInvoicesDirty()
      reads db
    {
      forall d :: d in db.book.dirty ==> |d| == 2 && d[0] == INVOICES
    }

    /** Its live tree, its recorded tree and what its text loads as stand for three images. */
    ghost predicate StandsFor(mem: Image, tracked: Image, disk: Image)
      reads this, db, db.storage
    {
      && db.Valid() && OnlyInvoicesDirty()
      && DocIs(db.data, mem, text) && DocIs(db.book.seen, tracked, text)
      && LoadData(db.storage.entry).Ok? && DocIs(LoadData(db.storage.entry).value, disk, text)
    }

    /** The store stands for the three images of a state. */
    ghost predicate Stands(s: State)
      reads this, db, db.storage
    {
      StandsFor(s.mem, s.tracked, s.disk)
    }

    /** Loading a text that stands for an image. */
    constructor (db: JsonDB, text: Bolt11 -> string, ghost s: State)
      requires db.Valid() && db.pending == [] && db.book.dirty == {} && db.Agrees()
      requires s.mem == s.tracked == s.disk && DocIs(db.data, s.mem, text)
      ensures this.db == db && this.text == text && Stands(s)
    {
      this.db := db;
      this.text := text;
      new;
      db.CleanAgrees();
      assert db.storage.entry + Joined(db.pending) == db.storage.entry;
      hide LoadData, DocIs, Tracks;
    }

    /** dict.__setitem__ for a new key of a section. */
    method Add(name: string, key: string, v: Value)
      requires db.Valid() && OnlyInvoicesDirty() && Editable(name, key) && Printable(v)
      requires HasSection(db.data, name) && HasSection(db.book.seen, name) && !HasKey(SectionOf(db.data, name), key)
      modifies db
      ensures db.Valid() && OnlyInvoicesDirty()
      ensures HasSection(old(db.data), name) && HasSection(old(db.book).seen, name)
      ensures db.data == WithSection(old(db.data), name, Put(SectionOf(old(db.data), name), key, v))
      ensures db.book.seen == WithSection(old(db.book).seen, name, Put(SectionOf(old(db.book).seen, name), key, v))
      ensures db.book.stored == old(db.book).stored && db.book.snapshot == old(db.book).snapshot
    {
      hide Tracks, WithSection, SetIn, Printable, LoadData;
      SectionIsTracked(db.book.dirty, name, key);
      EditsOfSection(db.data, name, key, v);
      EditsOfSection(db.book.seen, name, key, v);
      db.SetItem([name], key, v);
    }

    /** dict.pop for a key that is there. */
    method Remove(name: string, key: string) returns (v: Value)
      requires db.Valid() && OnlyInvoicesDirty() && Editable(name, key)
      requires HasSection(db.data, name) && HasSection(db.book.seen, name) && HasKey(SectionOf(db.data, name), key)
      modifies db
      ensures db.Valid() && OnlyInvoicesDirty()
      ensures HasSection(old(db.data), name) && HasSection(old(db.book).seen, name)
      ensures HasKey(SectionOf(old(db.data), name), key) && v == ValueAt(SectionOf(old(db.data), name), key)
      ensures db.data == WithSection(old(db.data), name, Without(SectionOf(old(db.data), name), key))
      ensures db.book.seen == WithSection(old(db.book).seen, name, Without(SectionOf(old(db.book).seen, name), key))
      ensures db.book.stored == old(db.book).stored && db.book.snapshot == old(db.book).snapshot
    {
      hide Tracks, WithSection, PopIn, Printable, LoadData;
      SectionIsTracked(db.book.dirty, name, key);
      EditsOfSection(db.data, name, key, Null);
      EditsOfSection(db.book.seen, name, key, Null);
      v := db.PopItem([name], key);
    }

    // ---- The operations of the run model ----

    method AddSwap(k: Hash, swap: Swap, ghost s: State)
      requires Stands(s) && k !in s.mem.swaps
      modifies db
      ensures Stands(SetSwap(s, k, swap))
    {
      HexIsPlain(k);
      SwapPrintable(swap);
      KeyOfSwap(db.data, s.mem, text, k);
      DocSwapSet(db.data, s.mem, text, k, swap);
      DocSwapSet(db.book.seen, s.tracked, text, k, swap);
      StandsApart(s);
      hide DocIs, Hex, SwapToJson, WithSection, LoadData, Tracks;
      Add(SWAPS, Hex(k), SwapToJson(swap));
    }

    method PopSwap(k: Hash, ghost s: State)
      requires Stands(s) && k in s.mem.swaps
      modifies db
      ensures Stands(Provider.PopSwap(s, k))
    {
      HexIsPlain(k);
      KeyOfSwap(db.data, s.mem, text, k);
      DocSwapPop(db.data, s.mem, text, k);
      DocSwapPop(db.book.seen, s.tracked, text, k);
      StandsApart(s);
      hide DocIs, Hex, WithSection, LoadData, Tracks;
      var _ := Remove(SWAPS, Hex(k));
    }

    /** Attribute number i of a stored swap is assigned. */
    method SetAttribute(k: Hash, i: nat, v: Value, ghost swap: Swap, ghost s: State)
      requires Stands(s) && k in s.mem.swaps && s.tracked.swaps == s.mem.swaps
      requires IsAssigned(s.mem.swaps[k], swap, i, v)
      modifies db
      ensures Stands(SetSwap(s, k, swap))
    {
      hide Hex, LoadData, Tracks, SetIn, PyEqual, DocIs, IsAssigned, SwapMembers, PlainKey, Printable, Reaches;
      HexIsPlain(k);
      AssignInDoc(db.data, s.mem, text, k, i, v, swap);
      AssignInDoc(db.book.seen, s.tracked, text, k, i, v, swap);
      SectionIsTracked(db.book.dirty, SWAPS, Hex(k));
      AttributesArePlain();
      db.SetAttribute([SWAPS, Hex(k)], ATTRIBUTES[i], v);
    }

    /** What a save does to a new or popped invoice, given as it is written. */
    method AddInvoice(k: Hash, v: Value, ghost inv: InvoiceRecord, ghost s: State)
      requires Stands(s) && k !in s.mem.invoices && v == InvoiceValue(inv, text)
      modifies db
      ensures Stands(SetInvoice(s, k, inv))
    {
      HexIsPlain(k);
      InvoicePrintable(inv, text(inv.bolt11));
      StoredPrintsTheSame(inv, text(inv.bolt11));
      KeyOfInvoice(db.data, s.mem, text, k);
      DocInvoiceSet(db.data, s.mem, text, k, inv);
      assert InvoiceValue(Stored(inv), text) == InvoiceValue(inv, text);
      DocInvoiceSet(db.book.seen, s.tracked, text, k, Stored(inv));
      StandsApart(s);
      hide DocIs, Hex, ToJson, WithSection, LoadData, Tracks, Stored, InvoiceValue;
      Add(INVOICES, Hex(k), v);
    }

    method PopInvoice(k: Hash, ghost s: State) returns (v: Value)
      requires Stands(s) && k in s.mem.invoices
      modifies db
      ensures Stands(Provider.PopInvoice(s, k)) && v == InvoiceValue(s.mem.invoices[k], text)
    {
      HexIsPlain(k);
      KeyOfInvoice(db.data, s.mem, text, k);
      DocInvoicePop(db.data, s.mem, text, k);
      DocInvoicePop(db.book.seen, s.tracked, text, k);
      StandsApart(s);
      hide DocIs, Hex, WithSection, LoadData, Tracks;
      v := Remove(INVOICES, Hex(k));
    }

    /** A method call on the live invoice at k, which the store does not see. */
    method Touch(k: Hash, v: Value, ghost inv: InvoiceRecord, ghost s: State)
      requires Stands(s) && k in s.mem.invoices && v == InvoiceValue(inv, text)
      modifies db
      ensures Stands(Provider.Touch(s, k, inv))
    {
      hide Hex, ToJson, WithSection, LoadData, Tracks, WithNode, Node, Section;
      HexIsPlain(k);
      InvoicePrintable(inv, text(inv.bolt11));
      KeyOfInvoice(db.data, s.mem, text, k);
      DocInvoiceSet(db.data, s.mem, text, k, inv);
      StandsApart(s);
      EditsInSection(db.data, INVOICES, Hex(k), "", v);
      SectionIsTracked(db.book.dirty, INVOICES, Hex(k));
      hide DocIs, InvoiceValue, PlainKey, Reaches;
      db.ChangeInPlace([INVOICES, Hex(k)], v);
    }

    method SetPreimage(k: Hash, p: Bytes, ghost s: State)
      requires Stands(s) && k !in s.mem.preimages
      modifies db
      ensures Stands(Provider.SetPreimage(s, k, p))
    {
      HexIsPlain(k);
      KeyOfPreimage(db.data, s.mem, text, k);
      DocPreimageSet(db.data, s.mem, text, k, p);
      DocPreimageSet(db.book.seen, s.tracked, text, k, p);
      StandsApart(s);
      hide DocIs, Hex, WithSection, LoadData, Tracks;
      Add(PREIMAGES, Hex(k), Str(Hex(p)));
    }

    /** pop with a default: nothing happens without the key. */
    method PopPreimage(k: Hash, ghost s: State)
      requires Stands(s) && s.tracked.preimages == s.mem.preimages
      modifies db
      ensures Stands(Provider.PopPreimage(s, k))
    {
      HexIsPlain(k);
      KeyOfPreimage(db.data, s.mem, text, k);
      StandsApart(s);
      if HasKey(SectionOf(db.data, PREIMAGES), Hex(k)) {
        DocPreimagePop(db.data, s.mem, text, k);
        DocPreimagePop(db.book.seen, s.tracked, text, k);
        hide DocIs, Hex, WithSection, LoadData, Tracks;
        var _ := Remove(PREIMAGES, Hex(k));
      } else {
        assert s.mem.preimages - {k} == s.mem.preimages;
      }
    }

    /** JsonDB.write, which consolidates or appends. */
    method Write(ghost s: State) returns (consolidate: bool)
      requires Stands(s)
      modifies db, db.storage
      ensures consolidate == old(db.Consolidates()) && Stands(Provider.Write(s, consolidate))
    {
      DocOfDump(db.data, s.mem, text);
      consolidate := db.Consolidates();
      hide DocIs, Tracks, LoadData, Dump, db.Consolidates;
      db.Write();
    }

    /** update_invoice: whatever was changed in the live invoice becomes durable. */
    method UpdateInvoice(k: Hash, ghost s: State) returns (consolidate: bool)
      requires Stands(s) && k in s.mem.invoices
      modifies db, db.storage
      ensures Stands(Provider.UpdateInvoice(s, k, consolidate))
    {
      hide StandsFor, InvoiceValue;
      ghost var inv := s.mem.invoices[k];
      ghost var popped := Provider.PopInvoice(s, k);
      var v := PopInvoice(k, s);
      AddInvoice(k, v, inv, popped);
      SetPopped(s, k, inv);
      consolidate := Write(SetInvoice(s, k, inv));
    }

    /** The documents have their sections. */
    lemma StandsApart(s: State)
      requires Stands(s)
      ensures HasSection(db.data, SWAPS) && HasSection(db.data, INVOICES) && HasSection(db.data, PREIMAGES)
      ensures HasSection(db.book.seen, SWAPS) && HasSection(db.book.seen, INVOICES)
              && HasSection(db.book.seen, PREIMAGES)
    {
      hide Section, LoadData, Tracks;
    }
  }

  /** Keys that a pointer holds without escapes. */
  predicate Editable(name: string, key: string)
  {
    name in {SWAPS, INVOICES, PREIMAGES} && PlainKey(key)
  }

  lemma NamesArePlain()
    ensures PlainKey(SWAPS) && PlainKey(INVOICES) && PlainKey(PREIMAGES)
  {
  }

  lemma {:induction false} HexIsPlain(h: Bytes)
    ensures PlainKey(Hex(h))
  {
    if h != [] {
      HexIsPlain(h[1..]);
    }
  }

  lemma SectionIsTracked(dirty: set<Path>, name: string, key: string)
    requires forall d :: d in dirty ==> |d| == 2 && d[0] == INVOICES
    requires Editable(name, key)
    ensures Tracked([name], dirty) && PlainPath([name])
    ensures Reaches([], [name, key], dirty) && PlainPath([name, key])
    ensures name != INVOICES ==> Tracked([name, key], dirty)
  {
    NamesArePlain();
    assert [name][1..] == [] && [name, key][1..] == [key] && [key][1..] == [];
    assert Reaches([], [name], dirty);
    assert Reaches([name], [key], dirty);
  }

  lemma KeyOfSwap(doc: Value, im: Image, text: Bolt11 -> string, k: Hash)
    requires DocIs(doc, im, text)
    ensures HasSection(doc, SWAPS) && (HasKey(SectionOf(doc, SWAPS), Hex(k)) <==> k in im.swaps)
    ensures k in im.swaps ==> ValueAt(SectionOf(doc, SWAPS), Hex(k)) == SwapToJson(im.swaps[k])
  {
    hide SwapToJson, Hex;
  }

  lemma KeyOfInvoice(doc: Value, im: Image, text: Bolt11 -> string, k: Hash)
    requires DocIs(doc, im, text)
    ensures HasSection(doc, INVOICES) && (HasKey(SectionOf(doc, INVOICES), Hex(k)) <==> k in im.invoices)
    ensures k in im.invoices ==> ValueAt(SectionOf(doc, INVOICES), Hex(k)) == InvoiceValue(im.invoices[k], text)
  {
    hide InvoiceValue, Hex;
  }

  lemma KeyOfPreimage(doc: Value, im: Image, text: Bolt11 -> string, k: Hash)
    requires DocIs(doc, im, text)
    ensures HasSection(doc, PREIMAGES) && (HasKey(SectionOf(doc, PREIMAGES), Hex(k)) <==> k in im.preimages)
  {
    hide Hex;
  }

  lemma SetPopped(s: State, k: Hash, inv: InvoiceRecord)
    ensures SetInvoice(Provider.PopInvoice(s, k), k, inv) == SetInvoice(s, k, inv)
  {
    assert (s.mem.invoices - {k})[k := inv] == s.mem.invoices[k := inv];
    assert (s.tracked.invoices - {k})[k := Stored(inv)] == s.tracked.invoices[k := Stored(inv)];
  }

  lemma AttributesArePlain()
    ensures forall i :: 0 <= i < 4 ==> PlainKey(ATTRIBUTES[i])
  {
  }

  /** Assigning an attribute in a document; a value that Python calls equal is the same, and changes nothing. */
  lemma AssignInDoc(doc: Value, im: Image, text: Bolt11 -> string, k: Hash, i: nat, v: Value, swap: Swap)
    requires DocIs(doc, im, text) && k in im.swaps && IsAssigned(im.swaps[k], swap, i, v)
    ensures i < 4 && Printable(v) && IsDict(doc, [SWAPS, Hex(k)]) && HasKey(DictAt(doc, [SWAPS, Hex(k)]), ATTRIBUTES[i])
    ensures DocIs(SetIn(doc, [SWAPS, Hex(k)], ATTRIBUTES[i], v), im.(swaps := im.swaps[k := swap]), text)
    ensures var was := ValueAt(DictAt(doc, [SWAPS, Hex(k)]), ATTRIBUTES[i]);
            && was == SwapMembers(im.swaps[k])[6 + i].1 && (PyEqual(v, was) ==> v == was)
            && (v == was ==> DocIs(doc, im.(swaps := im.swaps[k := swap]), text))
  {
    hide Hex, SwapToJson, SwapMembers, Section, WithSection, SetIn, PyEqual, Put;
    KeyOfSwap(doc, im, text, k);
    AssignedIs(im.swaps[k], swap, i, v);
    SwapPrintable(swap);
    DocSwapSet(doc, im, text, k, swap);
    EditsInSection(doc, SWAPS, Hex(k), ATTRIBUTES[i], v);
    if SwapToJson(swap) == SwapToJson(im.swaps[k]) {
      assert SwapValues(im.swaps[k := swap]) == SwapValues(im.swaps);
    }
  }

  /** After a crash, what the text loads as has each durable invoice, under its hash, as it was stored, and the
      preimages. */
  lemma CrashLoads(store: Store, s: State, decodepay: string -> Bolt11, h: Hash)
    requires store.Stands(s) && forall b :: decodepay(store.text(b)) == b
    requires forall g :: g in s.disk.invoices ==>
             Distinct(s.disk.invoices[g].htlcs) && s.disk.invoices[g].associated != Some([])
    ensures LoadData(store.db.storage.entry).Ok?
    ensures var doc := LoadData(store.db.storage.entry).value;
            && HasSection(doc, INVOICES) && HasSection(doc, SWAPS) && HasSection(doc, PREIMAGES)
            && (HasKey(SectionOf(doc, INVOICES), Hex(h)) <==> h in s.disk.invoices)
            && (h in s.disk.invoices ==>
                  FromJson(ValueAt(SectionOf(doc, INVOICES), Hex(h)), decodepay) == Ok(Stored(s.disk.invoices[h])))
            && (HasKey(SectionOf(doc, SWAPS), Hex(h)) <==> h in s.disk.swaps)
            && (h in s.disk.swaps ==> ValueAt(SectionOf(doc, SWAPS), Hex(h)) == SwapToJson(s.disk.swaps[h]))
            && (HasKey(SectionOf(doc, PREIMAGES), Hex(h)) <==> h in s.disk.preimages)
  {
    hide LoadData, Tracks, Section, Hex, FromJson, FromHex, SwapToJson;
    var doc := LoadData(store.db.storage.entry).value;
    KeyOfSwap(doc, s.disk, store.text, h);
    KeyOfInvoice(doc, s.disk, store.text, h);
    KeyOfPreimage(doc, s.disk, store.text, h);
    if h in s.disk.invoices {
      HexRoundTrip(h);
      LoadedImage(doc, s.disk, store.text, decodepay, Hex(h));
    }
  }
}
