/** The provider's database as one JSON document: its three sections, and what an edit of a section does to the image
    that the document stands for. */
module ProviderDoc {
  import opened Common
  import opened Invoices
  import opened LockScript
  import opened Provider
  import opened Json
  import opened JsonPatch
  import opened JsonTree
  import opened InvoiceJson

  const SWAPS := "submarine_swaps"
  const INVOICES := "hold_invoices"
  const PREIMAGES := "lightning_preimages"

  lemma SectionsDiffer()
    ensures SWAPS != INVOICES && SWAPS != PREIMAGES && INVOICES != PREIMAGES
  {
    assert SWAPS[0] == 's' && INVOICES[0] == 'h' && PREIMAGES[0] == 'l';
  }

  // ---- What the sections hold ----

  function OptionalText(h: Option<Bytes>): Value
  {
    match h case Some(b) => Str(Hex(b)) case None => Null
  }

  /** The stored attributes of a swap; the redeem script holds its lock. */
  function SwapMembers(swap: Swap): seq<(string, Value)>
  {
    [("is_reverse", Bool(swap.isReverse)), ("locktime", Num(swap.lock.locktime)),
     ("onchain_amount", Num(swap.onchainAmount)), ("lightning_amount", Num(swap.lightningAmount)),
     ("redeem_script", match LockBytes(swap.lock) case Ok(script) => Str(Hex(script)) case Err => Null),
     ("prepay_hash", OptionalText(swap.prepayHash)), ("preimage", OptionalText(swap.preimage)),
     ("funding_txid", OptionalText(swap.fundingTxid)), ("spending_txid", OptionalText(swap.spendingTxid)),
     ("is_redeemed", Bool(swap.isRedeemed))]
  }

  function SwapToJson(swap: Swap): Value { Obj(Members(SwapMembers(swap))) }

  lemma SwapKeysDiffer(swap: Swap)
    ensures NoKeyTwice(SwapMembers(swap))
  {
  }

  lemma SwapPrintable(swap: Swap)
    ensures Printable(SwapToJson(swap))
  {
    hide Members, HasKey, Hex, LockBytes, NoKeyTwice;
    SwapKeysDiffer(swap);
    MembersPrintable(SwapMembers(swap));
  }

  /** Assigning to a member. */
  lemma {:induction false} PutMember(ms: seq<(string, Value)>, i: nat, v: Value)
    requires NoKeyTwice(ms) && i < |ms|
    ensures Put(Members(ms), ms[i].0, v) == Members(ms[i := (ms[i].0, v)])
  {
    if i == 0 {
      assert ms[0 := (ms[0].0, v)][1..] == ms[1..];
    } else {
      assert ms[0].0 != ms[i].0;
      assert ms[i := (ms[i].0, v)][1..] == ms[1..][i - 1 := (ms[i].0, v)];
      PutMember(ms[1..], i - 1, v);
    }
  }

  const ATTRIBUTES: seq<string> := ["preimage", "funding_txid", "spending_txid", "is_redeemed"]

  /** The swap once its attribute number i is set to what v says. */
  predicate IsAssigned(was: Swap, swap: Swap, i: nat, v: Value)
  {
    i < 4 && SwapMembers(swap) == SwapMembers(was)[6 + i := (ATTRIBUTES[i], v)]
  }

  lemma Assignments(swap: Swap, b: Option<Bytes>, redeemed: bool)
    ensures IsAssigned(swap, swap.(preimage := b), 0, OptionalText(b))
    ensures IsAssigned(swap, swap.(fundingTxid := b), 1, OptionalText(b))
    ensures IsAssigned(swap, swap.(spendingTxid := b), 2, OptionalText(b))
    ensures IsAssigned(swap, swap.(isRedeemed := redeemed), 3, Bool(redeemed))
  {
    hide Hex, LockBytes;
  }

  /** What an assignment does to the stored form; Python's equality only holds for the same value. */
  lemma AssignedIs(was: Swap, swap: Swap, i: nat, v: Value)
    requires IsAssigned(was, swap, i, v)
    ensures SwapToJson(was).Obj? && HasKey(SwapToJson(was).fields, ATTRIBUTES[i])
    ensures Obj(Put(SwapToJson(was).fields, ATTRIBUTES[i], v)) == SwapToJson(swap)
    ensures ValueAt(SwapToJson(was).fields, ATTRIBUTES[i]) == SwapMembers(was)[6 + i].1
    ensures PyEqual(v, SwapMembers(was)[6 + i].1) ==> v == SwapMembers(was)[6 + i].1
    ensures v == SwapMembers(was)[6 + i].1 ==> SwapToJson(swap) == SwapToJson(was)
    ensures Printable(v)
  {
    hide Members, HasKey, ValueAt, Put, Hex, LockBytes, NoKeyTwice;
    var ms := SwapMembers(was);
    SwapKeysDiffer(was);
    assert ms[6 + i].0 == ATTRIBUTES[i] && SwapMembers(swap)[6 + i].1 == v;
    PutMember(ms, 6 + i, v);
    InvoiceJson.MemberAt(ms, 6 + i);
    if v == ms[6 + i].1 {
      assert ms[6 + i := (ATTRIBUTES[i], v)] == ms;
    }
  }

  function SwapValues(m: map<Hash, Swap>): map<Hash, Value> { map h | h in m :: SwapToJson(m[h]) }

  /** `text` gives the payment request of what decodepay reports. */
  function InvoiceValue(inv: InvoiceRecord, text: Bolt11 -> string): Value { ToJson(inv, text(inv.bolt11)) }

  function InvoiceValues(m: map<Hash, InvoiceRecord>, text: Bolt11 -> string): map<Hash, Value>
  {
    map h | h in m :: InvoiceValue(m[h], text)
  }

  function PreimageValues(m: map<Hash, Bytes>): map<Hash, Value> { map h | h in m :: Str(Hex(m[h])) }

  // ---- One section ----

  /** A dictionary whose keys are the hexadecimal forms of the keys of a map. */
  ghost predicate Section(fs: Fields, m: map<Hash, Value>)
  {
    && FieldsPrintable(fs)
    && (forall h: Hash :: HasKey(fs, Hex(h)) <==> h in m)
    && (forall h :: h in m ==> ValueAt(fs, Hex(h)) == m[h])
    && (forall key :: HasKey(fs, key) ==> exists h :: h in m && key == Hex(h))
  }

  lemma HexIsInjective(a: Bytes, b: Bytes)
    ensures Hex(a) == Hex(b) ==> a == b
  {
    HexRoundTrip(a);
    HexRoundTrip(b);
  }

  lemma AllHexInjective()
    ensures forall a: Bytes, b: Bytes :: Hex(a) == Hex(b) ==> a == b
  {
    forall a: Bytes, b: Bytes ensures Hex(a) == Hex(b) ==> a == b {
      HexIsInjective(a, b);
    }
  }

  lemma SectionPut(fs: Fields, m: map<Hash, Value>, h: Hash, v: Value)
    requires Section(fs, m) && Printable(v)
    ensures Section(Put(fs, Hex(h), v), m[h := v])
  {
    hide Hex;
    AllHexInjective();
    PutPrintable(fs, Hex(h), v);
    hide FieldsPrintable, Printable, Put;
    var gs, m' := Put(fs, Hex(h), v), m[h := v];
    forall g: Hash ensures HasKey(gs, Hex(g)) <==> g in m' {
      assert HasKey(gs, Hex(g)) <==> Hex(g) == Hex(h) || HasKey(fs, Hex(g)) by { PutKeys(fs, Hex(h), v, Hex(g)); }
    }
    forall g | g in m' ensures ValueAt(gs, Hex(g)) == m'[g] {
      PutKeys(fs, Hex(h), v, Hex(g));
    }
    forall key | HasKey(gs, key) ensures exists g :: g in m' && key == Hex(g) {
      PutKeys(fs, Hex(h), v, key);
      if key == Hex(h) {
        assert h in m';
      } else {
        var g :| g in m && key == Hex(g);
        assert g in m';
      }
    }
  }

  lemma PutKeys(fs: Fields, key: string, v: Value, other: string)
    ensures HasKey(Put(fs, key, v), other) <==> other == key || HasKey(fs, other)
    ensures HasKey(Put(fs, key, v), other) ==>
            ValueAt(Put(fs, key, v), other) == if other == key then v else ValueAt(fs, other)
  {
  }

  lemma {:induction false} WithoutKeeps(fs: Fields, key: string, other: string)
    requires FieldsPrintable(fs) && key != other
    ensures HasKey(Without(fs, key), other) <==> HasKey(fs, other)
    ensures HasKey(fs, other) ==> ValueAt(Without(fs, key), other) == ValueAt(fs, other)
  {
    if fs.Field? && fs.key != key && fs.key != other {
      WithoutKeeps(fs.rest, key, other);
    }
  }

  lemma SectionWithout(fs: Fields, m: map<Hash, Value>, h: Hash)
    requires Section(fs, m)
    ensures Section(Without(fs, Hex(h)), m - {h})
  {
    hide Hex;
    AllHexInjective();
    WithoutPrintable(fs, Hex(h));
    hide FieldsPrintable, Without;
    var gs, m' := Without(fs, Hex(h)), m - {h};
    forall g | g in m' ensures HasKey(gs, Hex(g)) && ValueAt(gs, Hex(g)) == m'[g] {
      WithoutKeeps(fs, Hex(h), Hex(g));
    }
    forall key | HasKey(gs, key) ensures exists g :: g in m' && key == Hex(g) {
      var g :| g in m && key == Hex(g);
      assert g in m';
    }
    forall g: Hash | HasKey(gs, Hex(g)) ensures g in m' {
      assert HasKey(fs, Hex(g));
    }
  }

  // ---- The document ----

  predicate HasSection(doc: Value, name: string)
  {
    doc.Obj? && HasKey(doc.fields, name) && ValueAt(doc.fields, name).Obj?
  }

  function SectionOf(doc: Value, name: string): Fields
    requires HasSection(doc, name)
  {
    ValueAt(doc.fields, name).fields
  }

  /** The document stands for an image. */
  ghost predicate DocIs(doc: Value, im: Image, text: Bolt11 -> string)
  {
    && HasSection(doc, SWAPS) && Section(SectionOf(doc, SWAPS), SwapValues(im.swaps))
    && HasSection(doc, INVOICES) && Section(SectionOf(doc, INVOICES), InvoiceValues(im.invoices, text))
    && HasSection(doc, PREIMAGES) && Section(SectionOf(doc, PREIMAGES), PreimageValues(im.preimages))
  }

  /** A section replaced. */
  function WithSection(doc: Value, name: string, fs: Fields): Value
    requires doc.Obj?
  {
    Obj(Put(doc.fields, name, Obj(fs)))
  }

  lemma SectionReplaced(doc: Value, name: string, fs: Fields, other: string)
    requires doc.Obj?
    ensures HasSection(WithSection(doc, name, fs), name) && SectionOf(WithSection(doc, name, fs), name) == fs
    ensures other != name && HasSection(doc, other) ==>
              HasSection(WithSection(doc, name, fs), other)
              && SectionOf(WithSection(doc, name, fs), other) == SectionOf(doc, other)
  {
  }

  /** The edits of JsonTree, in a section. */
  lemma EditsOfSection(doc: Value, name: string, key: string, v: Value)
    requires HasSection(doc, name)
    ensures IsDict(doc, [name]) && DictAt(doc, [name]) == SectionOf(doc, name)
    ensures SetIn(doc, [name], key, v) == WithSection(doc, name, Put(SectionOf(doc, name), key, v))
    ensures PopIn(doc, [name], key) == WithSection(doc, name, Without(SectionOf(doc, name), key))
  {
    assert [name][1..] == [];
    var s := ValueAt(doc.fields, name);
    assert Node(s, []) == Some(s);
    forall n ensures WithNode(doc, [name], n) == Obj(Put(doc.fields, name, n)) {
      assert WithNode(s, [], n) == n;
    }
  }

  /** And of a value in a section, as a whole and of one of its attributes. */
  lemma EditsInSection(doc: Value, name: string, key: string, attribute: string, v: Value)
    requires HasSection(doc, name) && HasKey(SectionOf(doc, name), key)
    ensures Node(doc, [name, key]) == Some(ValueAt(SectionOf(doc, name), key))
    ensures WithNode(doc, [name, key], v) == WithSection(doc, name, Put(SectionOf(doc, name), key, v))
    ensures ValueAt(SectionOf(doc, name), key).Obj? ==>
              var w := ValueAt(SectionOf(doc, name), key);
              && IsDict(doc, [name, key]) && DictAt(doc, [name, key]) == w.fields
              && SetIn(doc, [name, key], attribute, v)
                 == WithSection(doc, name, Put(SectionOf(doc, name), key, Obj(Put(w.fields, attribute, v))))
  {
    assert [name, key][1..] == [key] && [key][1..] == [];
    var s := ValueAt(doc.fields, name);
    assert Node(s, [key]) == Some(ValueAt(s.fields, key));
    forall n ensures WithNode(doc, [name, key], n) == WithSection(doc, name, Put(SectionOf(doc, name), key, n)) {
      assert WithNode(s, [key], n) == Obj(Put(s.fields, key, n));
    }
  }

  // ---- Edits of the document and of the image ----

  lemma DocSwapSet(doc: Value, im: Image, text: Bolt11 -> string, h: Hash, swap: Swap)
    requires DocIs(doc, im, text) && Printable(SwapToJson(swap))
    ensures DocIs(WithSection(doc, SWAPS, Put(SectionOf(doc, SWAPS), Hex(h), SwapToJson(swap))),
                  im.(swaps := im.swaps[h := swap]), text)
  {
    hide Section, Hex, SwapToJson;
    SectionsDiffer();
    SectionPut(SectionOf(doc, SWAPS), SwapValues(im.swaps), h, SwapToJson(swap));
    assert SwapValues(im.swaps[h := swap]) == SwapValues(im.swaps)[h := SwapToJson(swap)];
    var fs := Put(SectionOf(doc, SWAPS), Hex(h), SwapToJson(swap));
    SectionReplaced(doc, SWAPS, fs, INVOICES);
    SectionReplaced(doc, SWAPS, fs, PREIMAGES);
    hide WithSection;
  }

  lemma DocSwapPop(doc: Value, im: Image, text: Bolt11 -> string, h: Hash)
    requires DocIs(doc, im, text)
    ensures DocIs(WithSection(doc, SWAPS, Without(SectionOf(doc, SWAPS), Hex(h))), im.(swaps := im.swaps - {h}), text)
  {
    hide Section, Hex, SwapToJson;
    SectionsDiffer();
    SectionWithout(SectionOf(doc, SWAPS), SwapValues(im.swaps), h);
    assert SwapValues(im.swaps - {h}) == SwapValues(im.swaps) - {h};
    var fs := Without(SectionOf(doc, SWAPS), Hex(h));
    SectionReplaced(doc, SWAPS, fs, INVOICES);
    SectionReplaced(doc, SWAPS, fs, PREIMAGES);
    hide WithSection;
  }

  lemma DocInvoiceSet(doc: Value, im: Image, text: Bolt11 -> string, h: Hash, inv: InvoiceRecord)
    requires DocIs(doc, im, text) && Printable(InvoiceValue(inv, text))
    ensures DocIs(WithSection(doc, INVOICES, Put(SectionOf(doc, INVOICES), Hex(h), InvoiceValue(inv, text))),
                  im.(invoices := im.invoices[h := inv]), text)
  {
    hide Section, Hex, InvoiceValue;
    SectionsDiffer();
    SectionPut(SectionOf(doc, INVOICES), InvoiceValues(im.invoices, text), h, InvoiceValue(inv, text));
    assert InvoiceValues(im.invoices[h := inv], text) == InvoiceValues(im.invoices, text)[h := InvoiceValue(inv, text)];
    var fs := Put(SectionOf(doc, INVOICES), Hex(h), InvoiceValue(inv, text));
    SectionReplaced(doc, INVOICES, fs, SWAPS);
    SectionReplaced(doc, INVOICES, fs, PREIMAGES);
    hide WithSection;
  }

  lemma DocInvoicePop(doc: Value, im: Image, text: Bolt11 -> string, h: Hash)
    requires DocIs(doc, im, text)
    ensures DocIs(WithSection(doc, INVOICES, Without(SectionOf(doc, INVOICES), Hex(h))),
                  im.(invoices := im.invoices - {h}), text)
  {
    hide Section, Hex, InvoiceValue;
    SectionsDiffer();
    SectionWithout(SectionOf(doc, INVOICES), InvoiceValues(im.invoices, text), h);
    assert InvoiceValues(im.invoices - {h}, text) == InvoiceValues(im.invoices, text) - {h};
    var fs := Without(SectionOf(doc, INVOICES), Hex(h));
    SectionReplaced(doc, INVOICES, fs, SWAPS);
    SectionReplaced(doc, INVOICES, fs, PREIMAGES);
    hide WithSection;
  }

  lemma DocPreimageSet(doc: Value, im: Image, text: Bolt11 -> string, h: Hash, p: Bytes)
    requires DocIs(doc, im, text)
    ensures DocIs(WithSection(doc, PREIMAGES, Put(SectionOf(doc, PREIMAGES), Hex(h), Str(Hex(p)))),
                  im.(preimages := im.preimages[h := p]), text)
  {
    hide Section, Hex;
    SectionsDiffer();
    SectionPut(SectionOf(doc, PREIMAGES), PreimageValues(im.preimages), h, Str(Hex(p)));
    assert PreimageValues(im.preimages[h := p]) == PreimageValues(im.preimages)[h := Str(Hex(p))];
    var fs := Put(SectionOf(doc, PREIMAGES), Hex(h), Str(Hex(p)));
    SectionReplaced(doc, PREIMAGES, fs, SWAPS);
    SectionReplaced(doc, PREIMAGES, fs, INVOICES);
    hide WithSection;
  }

  lemma DocPreimagePop(doc: Value, im: Image, text: Bolt11 -> string, h: Hash)
    requires DocIs(doc, im, text)
    ensures DocIs(WithSection(doc, PREIMAGES, Without(SectionOf(doc, PREIMAGES), Hex(h))),
                  im.(preimages := im.preimages - {h}), text)
  {
    hide Section, Hex;
    SectionsDiffer();
    SectionWithout(SectionOf(doc, PREIMAGES), PreimageValues(im.preimages), h);
    assert PreimageValues(im.preimages - {h}) == PreimageValues(im.preimages) - {h};
    var fs := Without(SectionOf(doc, PREIMAGES), Hex(h));
    SectionReplaced(doc, PREIMAGES, fs, SWAPS);
    SectionReplaced(doc, PREIMAGES, fs, INVOICES);
    hide WithSection;
  }

  /** Losing the pending requests does not show. */
  lemma DocOfDump(doc: Value, im: Image, text: Bolt11 -> string)
    ensures DocIs(doc, Dump(im), text) <==> DocIs(doc, im, text)
  {
    forall h | h in im.invoices
      ensures InvoiceValue(Stored(im.invoices[h]), text) == InvoiceValue(im.invoices[h], text)
    {
      StoredPrintsTheSame(im.invoices[h], text(im.invoices[h].bolt11));
    }
    SameValues(im, text);
    hide Section, InvoiceValues, Dump;
  }

  lemma SameValues(im: Image, text: Bolt11 -> string)
    requires forall h :: h in im.invoices ==>
             InvoiceValue(Stored(im.invoices[h]), text) == InvoiceValue(im.invoices[h], text)
    ensures InvoiceValues(Dump(im).invoices, text) == InvoiceValues(im.invoices, text)
    ensures Dump(im).swaps == im.swaps && Dump(im).preimages == im.preimages
  {
    hide InvoiceValue, Stored;
  }

  // ---- What a restart reads ----

  /** What is loaded from a document that stands for an image gives back the keys, and each invoice as it was stored. */
  lemma LoadedImage(doc: Value, im: Image, text: Bolt11 -> string, decodepay: string -> Bolt11, key: string)
    requires DocIs(doc, im, text) && HasKey(SectionOf(doc, INVOICES), key)
    requires forall b :: decodepay(text(b)) == b
    requires forall h :: h in im.invoices ==> Distinct(im.invoices[h].htlcs) && im.invoices[h].associated != Some([])
    ensures FromHex(key).Ok? && FromHex(key).value in im.invoices
    ensures FromJson(ValueAt(SectionOf(doc, INVOICES), key), decodepay) == Ok(Stored(im.invoices[FromHex(key).value]))
  {
    var h :| h in InvoiceValues(im.invoices, text) && key == Hex(h);
    HexRoundTrip(h);
    InvoiceRoundTrip(im.invoices[h], text(im.invoices[h].bolt11), decodepay);
  }
}
