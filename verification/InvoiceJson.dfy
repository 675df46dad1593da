/** Hold invoices as values of the database: what to_json writes and the constructor reads back. */
module InvoiceJson {
  import opened Common
  import opened JsonString
  import opened Json
  import opened Invoices

  // ---- Hexadecimal ----

  /** bytes.hex */
  function Hex(b: Bytes): string
  {
    if b == [] then "" else [HexDigit(b[0] / 16), HexDigit(b[0] % 16)] + Hex(b[1..])
  }

  /** bytes.fromhex, for text without spaces. */
  function FromHex(s: string): Result<Bytes>
  {
    if s == "" then Ok([])
    else if |s| == 1 || FromHexDigit(s[0]).None? || FromHexDigit(s[1]).None? then Err
    else
      Prepend([(16 * FromHexDigit(s[0]).value + FromHexDigit(s[1]).value) as byte], FromHex(s[2..]))
  }

  lemma {:induction false} HexRoundTrip(b: Bytes)
    ensures FromHex(Hex(b)) == Ok(b)
  {
    if b != [] {
      HexRoundTrip(b[1..]);
      var s := Hex(b);
      assert s[2..] == Hex(b[1..]);
      assert [b[0]] + b[1..] == b;
    }
  }

  // ---- Members ----

  /** A dictionary display. */
  function Members(ms: seq<(string, Value)>): Fields
  {
    if ms == [] then End else Field(ms[0].0, ms[0].1, Members(ms[1..]))
  }

  predicate NoKeyTwice(ms: seq<(string, Value)>)
  {
    forall i, j :: 0 <= i < j < |ms| ==> ms[i].0 != ms[j].0
  }

  lemma {:induction false} MemberAt(ms: seq<(string, Value)>, i: nat)
    requires NoKeyTwice(ms) && i < |ms|
    ensures HasKey(Members(ms), ms[i].0) && ValueAt(Members(ms), ms[i].0) == ms[i].1
  {
    if i > 0 {
      assert ms[0].0 != ms[i].0;
      MemberAt(ms[1..], i - 1);
    }
  }

  lemma {:induction false} OnlyMembers(ms: seq<(string, Value)>, key: string)
    requires forall i :: 0 <= i < |ms| ==> ms[i].0 != key
    ensures !HasKey(Members(ms), key)
  {
    if ms != [] {
      OnlyMembers(ms[1..], key);
    }
  }

  lemma {:induction false} MembersPrintable(ms: seq<(string, Value)>)
    requires NoKeyTwice(ms) && forall i :: 0 <= i < |ms| ==> Printable(ms[i].1)
    ensures FieldsPrintable(Members(ms))
  {
    if ms != [] {
      OnlyMembers(ms[1..], ms[0].0);
      MembersPrintable(ms[1..]);
    }
  }

  function TextOf(fs: Fields, key: string): Result<string>
  {
    if HasKey(fs, key) && ValueAt(fs, key).Str? then Ok(ValueAt(fs, key).s) else Err
  }

  function NumberOf(fs: Fields, key: string): Result<int>
  {
    if HasKey(fs, key) && ValueAt(fs, key).Num? then Ok(ValueAt(fs, key).n) else Err
  }

  // ---- HTLCs ----

  function StateNumber(s: HtlcState): int
  {
    match s case Settled => 1 case Accepted => 2 case Cancelled => 3
  }

  function StateOf(n: int): Result<HtlcState>
  {
    if n == 1 then Ok(Settled) else if n == 2 then Ok(Accepted) else if n == 3 then Ok(Cancelled) else Err
  }

  function HtlcMembers(h: HtlcRecord): seq<(string, Value)>
  {
    [("_type", Str("Htlc")), ("state", Num(StateNumber(h.state))), ("short_channel_id", Str(h.scid)),
     ("channel_id", Num(h.channelId)), ("amount_msat", Num(h.amountMsat)), ("created_at", Num(h.createdAt))]
  }

  /** Htlc.to_json */
  function HtlcToJson(h: HtlcRecord): Value { Obj(Members(HtlcMembers(h))) }

  /** Htlc.from_json; a negative amount is no HTLC here. */
  function HtlcFromJson(v: Value): Result<HtlcRecord>
  {
    if !v.Obj? || TextOf(v.fields, "_type") != Ok("Htlc") then Err
    else match (NumberOf(v.fields, "state"), TextOf(v.fields, "short_channel_id"), NumberOf(v.fields, "channel_id"),
                NumberOf(v.fields, "amount_msat"), NumberOf(v.fields, "created_at")) {
      case (Ok(n), Ok(scid), Ok(id), Ok(amount), Ok(created)) =>
        if StateOf(n).Err? || amount < 0 then Err
        else Ok(HtlcRecord(StateOf(n).value, scid, id, amount, created, Detached))
      case _ => Err
    }
  }

  lemma HtlcRoundTrip(h: HtlcRecord)
    ensures HtlcFromJson(HtlcToJson(h)) == Ok(StoredHtlc(h))
    ensures Printable(HtlcToJson(h))
  {
    hide ValueAt, HasKey, Members;
    var ms := HtlcMembers(h);
    forall i | 0 <= i < 6 ensures HasKey(Members(ms), ms[i].0) && ValueAt(Members(ms), ms[i].0) == ms[i].1 {
      MemberAt(ms, i);
    }
    assert ms[0] == ("_type", Str("Htlc")) && ms[1].0 == "state" && ms[2].0 == "short_channel_id";
    assert ms[3].0 == "channel_id" && ms[4].0 == "amount_msat" && ms[5].0 == "created_at";
    MembersPrintable(ms);
  }

  function HtlcsToJson(hs: seq<HtlcRecord>): Items
  {
    if hs == [] then Nil else Cons(HtlcToJson(hs[0]), HtlcsToJson(hs[1..]))
  }

  /** Adding to the set of HTLCs: an equal one with the same hash is kept instead. */
  function AddToSet(hs: seq<HtlcRecord>, h: HtlcRecord): seq<HtlcRecord>
  {
    if exists i :: 0 <= i < |hs| && SameHtlc(hs[i], h) && hs[i].createdAt == h.createdAt then hs else hs + [h]
  }

  /** The set built from a list of HTLCs, behind what is in it already. */
  function HtlcsFromJson(hs: seq<HtlcRecord>, xs: Items): Result<seq<HtlcRecord>>
    decreases xs
  {
    match xs
    case Nil => Ok(hs)
    case Cons(v, rest) =>
      match HtlcFromJson(v)
      case Err => Err
      case Ok(h) => HtlcsFromJson(AddToSet(hs, h), rest)
  }

  /** HTLCs of which no two are equal come back in their order. */
  lemma {:induction false} HtlcsRoundTrip(before: seq<HtlcRecord>, hs: seq<HtlcRecord>)
    requires Distinct(before + hs)
    ensures HtlcsFromJson(StoredHtlcs(before), HtlcsToJson(hs)) == Ok(StoredHtlcs(before + hs))
    decreases |hs|
  {
    if hs == [] {
      assert before + hs == before;
    } else {
      var h := hs[0];
      HtlcRoundTrip(h);
      forall i | 0 <= i < |before| ensures !SameHtlc(StoredHtlcs(before)[i], StoredHtlc(h)) {
        assert (before + hs)[i] == before[i] && (before + hs)[|before|] == h;
      }
      assert StoredHtlcs(before) + [StoredHtlc(h)] == StoredHtlcs(before + [h]);
      assert (before + [h]) + hs[1..] == before + hs;
      HtlcsRoundTrip(before + [h], hs[1..]);
    }
  }

  lemma {:induction false} HtlcsPrintable(hs: seq<HtlcRecord>)
    ensures AllPrintable(HtlcsToJson(hs))
  {
    if hs != [] {
      HtlcRoundTrip(hs[0]);
      HtlcsPrintable(hs[1..]);
    }
  }

  // ---- Hold invoices ----

  function StatusNumber(s: FundingStatus): int
  {
    match s case SETTLED => 1 case FUNDED => 2 case UNFUNDED => 3 case FAILED => 4
  }

  function StatusOf(n: int): Result<FundingStatus>
  {
    if n == 1 then Ok(SETTLED) else if n == 2 then Ok(FUNDED)
    else if n == 3 then Ok(UNFUNDED) else if n == 4 then Ok(FAILED) else Err
  }

  /** The associated hash; an empty one is written as none. */
  function HashToJson(h: Option<Bytes>): Value
  {
    if h.Some? && h.value != [] then Str(Hex(h.value)) else Null
  }

  function InvoiceMembers(inv: InvoiceRecord, bolt11: string): seq<(string, Value)>
  {
    [("payment_hash", Str(Hex(inv.paymentHash))), ("bolt11", Str(bolt11)), ("amount_msat", Num(inv.amountMsat)),
     ("expiry", Num(inv.expiry)), ("incoming_htlcs", Arr(HtlcsToJson(inv.htlcs))),
     ("funding_status", Num(StatusNumber(inv.status))), ("created_at", Num(inv.createdAt)),
     ("associated_invoice", HashToJson(inv.associated))]
  }

  /** to_json, for an invoice whose payment request reads `bolt11`. */
  function ToJson(inv: InvoiceRecord, bolt11: string): Value { Obj(Members(InvoiceMembers(inv, bolt11))) }

  /** hex_to_bytes */
  function OptionalHash(v: Value): Result<Option<Bytes>>
  {
    match v
    case Null => Ok(None)
    case Str(s) => (match FromHex(s) case Ok(b) => Ok(Some(b)) case Err => Err)
    case _ => Err
  }

  function HtlcsOf(fs: Fields): Result<seq<HtlcRecord>>
  {
    if !HasKey(fs, "incoming_htlcs") then Ok([])
    else if ValueAt(fs, "incoming_htlcs").Arr? then HtlcsFromJson([], ValueAt(fs, "incoming_htlcs").items)
    else Err
  }

  function HashOf(fs: Fields): Result<Bytes>
  {
    match TextOf(fs, "payment_hash") case Ok(s) => FromHex(s) case Err => Err
  }

  /** The constructor from a dictionary. */
  function FromJson(v: Value, decodepay: string -> Bolt11): Result<InvoiceRecord>
  {
    if !v.Obj? || !HasKey(v.fields, "associated_invoice") then Err
    else
      var fs := v.fields;
      match (HashOf(fs), TextOf(fs, "bolt11"), NumberOf(fs, "amount_msat"), NumberOf(fs, "expiry"), HtlcsOf(fs),
             NumberOf(fs, "funding_status"), NumberOf(fs, "created_at"),
             OptionalHash(ValueAt(fs, "associated_invoice"))) {
        case (Ok(hash), Ok(bolt11), Ok(amount), Ok(expiry), Ok(htlcs), Ok(status), Ok(created), Ok(associated)) =>
          if StatusOf(status).Err? || amount < 0 then Err
          else
            Ok(InvoiceRecord(hash, decodepay(bolt11), amount, expiry, htlcs, StatusOf(status).value, created,
                associated))
        case _ => Err
      }
  }

  lemma InvoiceMembersAre(inv: InvoiceRecord, bolt11: string)
    ensures var fs := Members(InvoiceMembers(inv, bolt11));
            && TextOf(fs, "payment_hash") == Ok(Hex(inv.paymentHash)) && TextOf(fs, "bolt11") == Ok(bolt11)
            && NumberOf(fs, "amount_msat") == Ok(inv.amountMsat) && NumberOf(fs, "expiry") == Ok(inv.expiry)
            && HasKey(fs, "incoming_htlcs") && ValueAt(fs, "incoming_htlcs") == Arr(HtlcsToJson(inv.htlcs))
            && NumberOf(fs, "funding_status") == Ok(StatusNumber(inv.status))
            && NumberOf(fs, "created_at") == Ok(inv.createdAt)
            && HasKey(fs, "associated_invoice") && ValueAt(fs, "associated_invoice") == HashToJson(inv.associated)
  {
    hide ValueAt, HasKey, Members, Hex, StatusNumber, HtlcsToJson, HashToJson;
    var ms := InvoiceMembers(inv, bolt11);
    forall i | 0 <= i < 8 ensures HasKey(Members(ms), ms[i].0) && ValueAt(Members(ms), ms[i].0) == ms[i].1 {
      MemberAt(ms, i);
    }
    assert ms[0].0 == "payment_hash" && ms[1].0 == "bolt11" && ms[2].0 == "amount_msat" && ms[3].0 == "expiry";
    assert ms[4].0 == "incoming_htlcs" && ms[5].0 == "funding_status" && ms[6].0 == "created_at";
    assert ms[7].0 == "associated_invoice";
  }

  /** An invoice that the database writes and loads comes back as its stored form, unless its associated hash is
      empty. */
  lemma InvoiceRoundTrip(inv: InvoiceRecord, bolt11: string, decodepay: string -> Bolt11)
    requires Distinct(inv.htlcs) && decodepay(bolt11) == inv.bolt11
    ensures FromJson(ToJson(inv, bolt11), decodepay)
         == Ok(if inv.associated == Some([]) then Stored(inv).(associated := None) else Stored(inv))
  {
    hide ValueAt, HasKey, Members, Hex, FromHex, InvoiceMembers;
    InvoiceMembersAre(inv, bolt11);
    HexRoundTrip(inv.paymentHash);
    if inv.associated.Some? {
      HexRoundTrip(inv.associated.value);
    }
    assert [] + inv.htlcs == inv.htlcs;
    HtlcsRoundTrip([], inv.htlcs);
  }

  lemma InvoicePrintable(inv: InvoiceRecord, bolt11: string)
    ensures Printable(ToJson(inv, bolt11))
  {
    hide HasKey, Members, Hex;
    HexRoundTrip(inv.paymentHash);
    HtlcsPrintable(inv.htlcs);
    if inv.associated.Some? {
      HexRoundTrip(inv.associated.value);
    }
    MembersPrintable(InvoiceMembers(inv, bolt11));
  }

  /** Through the text: what is loaded after a restart is the stored form, which is as well formed as the invoice
      was. */
  lemma InvoiceSurvivesRestart(inv: InvoiceRecord, bolt11: string, decodepay: string -> Bolt11)
    requires WellFormed(inv) && inv.associated != Some([]) && decodepay(bolt11) == inv.bolt11
    ensures var v := Loads(Print(ToJson(inv, bolt11)));
            v.Ok? && FromJson(v.value, decodepay) == Ok(Stored(inv)) && WellFormed(Stored(inv))
  {
    InvoicePrintable(inv, bolt11);
    LoadsOfPrint(ToJson(inv, bolt11));
    InvoiceRoundTrip(inv, bolt11, decodepay);
    StoredKeepsWellFormed(inv);
  }

  /** Losing the pending requests is invisible in the text. */
  lemma StoredPrintsTheSame(inv: InvoiceRecord, bolt11: string)
    ensures ToJson(Stored(inv), bolt11) == ToJson(inv, bolt11)
  {
    StoredHtlcsPrintTheSame(inv.htlcs);
  }

  lemma {:induction false} StoredHtlcsPrintTheSame(hs: seq<HtlcRecord>)
    ensures HtlcsToJson(StoredHtlcs(hs)) == HtlcsToJson(hs)
  {
    if hs != [] {
      assert StoredHtlcs(hs)[1..] == StoredHtlcs(hs[1..]);
      StoredHtlcsPrintTheSame(hs[1..]);
    }
  }
}
