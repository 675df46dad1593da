/** The stored form of the database: a snapshot and the patch records appended to it, and how it is loaded,
    also when the last append was torn. */
module Journal {
  import opened Common
  import opened JsonString
  import opened Json
  import opened JsonPatch

  const SEPARATOR := ",\n"

  // ---- The stored text ----

  /** What _append_pending_changes appends: every record behind a separator. */
  function Appended(xs: Items): string
  {
    match xs
    case Nil => ""
    case Cons(h, t) => SEPARATOR + (Print(h) + Appended(t))
  }

  /** A snapshot and records. */
  function Lines(head: Value, tail: Items): string
  {
    Print(head) + Appended(tail)
  }

  predicate AllPatchesOk(ps: seq<Patch>)
  {
    ps == [] || (PatchOk(ps[0]) && AllPatchesOk(ps[1..]))
  }

  function PatchValues(ps: seq<Patch>): Items
    requires AllPatchesOk(ps)
  {
    if ps == [] then Nil else Cons(PatchValue(ps[0]), PatchValues(ps[1..]))
  }

  function JournalText(snapshot: Value, ps: seq<Patch>): string
    requires AllPatchesOk(ps)
  {
    Lines(snapshot, PatchValues(ps))
  }

  // ---- Loading ----

  function Weight(c: char): int { if c == '{' then 1 else if c == '}' then -1 else 0 }

  /** Opening minus closing braces among the first i characters, wherever they stand. */
  function DepthAt(s: string, i: nat): int
    requires i <= |s|
  {
    if i == 0 then 0 else DepthAt(s, i - 1) + Weight(s[i - 1])
  }

  /** Where the backward scan of maybe_load_incomplete_data cuts: the last position before i with no open brace. */
  function CutPoint(s: string, i: nat): (c: nat)
    requires i <= |s| && DepthAt(s, i) > 0
    ensures c < i && DepthAt(s, c) == 0 && forall k :: c < k <= i ==> DepthAt(s, k) > 0
  {
    if DepthAt(s, i - 1) == 0 then i - 1 else CutPoint(s, i - 1)
  }

  function PatchesOf(xs: Items): Option<seq<Patch>>
  {
    match xs
    case Nil => Some([])
    case Cons(h, t) =>
      match (PatchOf(h), PatchesOf(t))
      case (Some(p), Some(ps)) => Some([p] + ps)
      case _ => None
  }

  /** A parsed snapshot and records, applied. */
  function Applied(data: Value, patches: Items): Result<Value>
  {
    if !data.Obj? then Err
    else match PatchesOf(patches)
      case None => Err
      case Some(ps) => Replay(data, ps)
  }

  /** load_data; Err stands for every exception. An empty dictionary that was recovered counts as not recovered. */
  function LoadData(s: string): Result<Value>
    decreases |s|
  {
    if s == "" then Ok(Obj(End))
    else match Loads("[" + (s + "]"))
      case Ok(Arr(Cons(data, patches))) => Applied(data, patches)
      case _ =>
        if DepthAt(s, |s|) <= 0 then Err
        else
          var c := CutPoint(s, |s|);
          if c < 2 || s[c - 2..c] != SEPARATOR then Err
          else match LoadData(s[..c - 2])
            case Ok(v) => if v == Obj(End) then Err else Ok(v)
            case Err => Err
  }

  /** The scan as the loop that load_data runs. */
  method MaybeLoadIncompleteData(s: string) returns (cut: Option<nat>)
    ensures cut.None? <==> DepthAt(s, |s|) <= 0
    ensures cut.Some? ==> cut.value == CutPoint(s, |s|)
  {
    var n := CountBraces(s);
    var i: int := |s|;
    while n > 0 && i > 0
      invariant 0 <= i <= |s| && n == DepthAt(s, i)
      invariant forall k :: i <= k <= |s| && DepthAt(s, |s|) > 0 ==> DepthAt(s, k) > 0
      invariant i < |s| ==> DepthAt(s, |s|) > 0
      decreases i
    {
      i := i - 1;
      if s[i] == '{' {
        n := n - 1;
      }
      if s[i] == '}' {
        n := n + 1;
      }
      if n == 0 {
        CutPointIs(s, |s|, i);
        return Some(i);
      }
    }
    return None;
  }

  /** s.count('{') - s.count('}') */
  method CountBraces(s: string) returns (n: int)
    ensures n == DepthAt(s, |s|)
  {
    n := 0;
    for i := 0 to |s|
      invariant n == DepthAt(s, i)
    {
      n := n + Weight(s[i]);
    }
  }

  lemma {:induction false} CutPointIs(s: string, i: nat, c: nat)
    requires c < i <= |s| && DepthAt(s, c) == 0 && forall k :: c < k <= i ==> DepthAt(s, k) > 0
    ensures CutPoint(s, i) == c
  {
    if c < i - 1 {
      CutPointIs(s, i - 1, c);
    }
  }

  // ---- Braces in printed text ----

  predicate NoBraces(s: string) { forall i :: 0 <= i < |s| ==> s[i] != '{' && s[i] != '}' }

  /** No brace inside a string of the value. */
  predicate BraceFree(v: Value)
  {
    match v
    case Str(s) => NoBraces(s)
    case Arr(items) => ItemsBraceFree(items)
    case Obj(fields) => FieldsBraceFree(fields)
    case _ => true
  }

  predicate ItemsBraceFree(xs: Items)
  {
    xs.Cons? ==> BraceFree(xs.head) && ItemsBraceFree(xs.tail)
  }

  predicate FieldsBraceFree(fs: Fields)
  {
    fs.Field? ==> NoBraces(fs.key) && BraceFree(fs.value) && FieldsBraceFree(fs.rest)
  }

  lemma {:induction false} DepthOfConcat(a: string, b: string, i: nat)
    requires i <= |a| + |b|
    ensures DepthAt(a + b, i) == if i <= |a| then DepthAt(a, i) else DepthAt(a, |a|) + DepthAt(b, i - |a|)
  {
    if i > 0 {
      DepthOfConcat(a, b, i - 1);
      assert (a + b)[i - 1] == if i <= |a| then a[i - 1] else b[i - 1 - |a|];
    }
  }

  /** Every brace is closed, and none before it was opened. */
  predicate Nested(s: string)
  {
    DepthAt(s, |s|) == 0 && forall i :: 0 <= i <= |s| ==> DepthAt(s, i) >= 0
  }

  lemma NestedConcat(a: string, b: string)
    requires Nested(a) && Nested(b)
    ensures Nested(a + b)
  {
    forall i | 0 <= i <= |a + b| ensures DepthAt(a + b, i) >= 0 {
      DepthOfConcat(a, b, i);
    }
    DepthOfConcat(a, b, |a + b|);
  }

  lemma {:induction false} NoBracesDepth(s: string, i: nat)
    requires NoBraces(s) && i <= |s|
    ensures DepthAt(s, i) == 0
  {
    if i > 0 {
      NoBracesDepth(s, i - 1);
    }
  }

  lemma NoBracesNested(s: string)
    requires NoBraces(s)
    ensures Nested(s)
  {
    forall i | 0 <= i <= |s| ensures DepthAt(s, i) == 0 {
      NoBracesDepth(s, i);
    }
  }

  /** Inside a braced text the depth is at least one. */
  lemma BracedDepth(body: string, i: nat)
    requires Nested(body) && i <= |body| + 2
    ensures var s := "{" + (body + "}");
            DepthAt(s, i) == if i == 0 || i == |s| then 0 else 1 + DepthAt(body, i - 1)
  {
    DepthOfConcat("{", body + "}", i);
    assert DepthAt("{", 0) == 0;
    assert DepthAt("{", 1) == 1;
    if i > 0 {
      DepthOfConcat(body, "}", i - 1);
      assert DepthAt("}", 0) == 0;
      assert DepthAt("}", 1) == -1;
    }
  }

  lemma BracedNested(body: string)
    requires Nested(body)
    ensures Nested("{" + (body + "}"))
  {
    var s := "{" + (body + "}");
    forall i | 0 <= i <= |s| ensures DepthAt(s, i) >= 0 {
      BracedDepth(body, i);
    }
    BracedDepth(body, |s|);
  }

  lemma {:induction false} PrintNested(v: Value)
    requires BraceFree(v)
    ensures Nested(Print(v))
    decreases v
  {
    hide Nested;
    match v {
      case Str(s) =>
        QuotedNested(s);
      case Arr(items) =>
        PrintItemsNested(items);
        NoBracesNested("[");
        NoBracesNested("]");
        NestedConcat(PrintItems(items), "]");
        NestedConcat("[", PrintItems(items) + "]");
      case Obj(fields) =>
        PrintFieldsNested(fields);
        BracedNested(PrintFields(fields));
      case _ =>
        NoBracesNested(Print(v));
    }
  }

  /** Escaping adds no braces. */
  lemma {:induction false} EscapedHasNoBraces(s: string)
    requires NoBraces(s)
    ensures NoBraces(Escaped(s))
  {
    if s != "" {
      assert NoBraces(EscapedChar(s[0])) by {
        assert s[0] != '{' && s[0] != '}';
      }
      EscapedHasNoBraces(s[1..]);
    }
  }

  lemma QuotedNested(s: string)
    requires NoBraces(s)
    ensures Nested(Quoted(s))
  {
    EscapedHasNoBraces(s);
    NoBracesNested(Quoted(s));
  }

  lemma {:induction false} PrintItemsNested(xs: Items)
    requires ItemsBraceFree(xs)
    ensures Nested(PrintItems(xs))
    decreases xs
  {
    hide Nested;
    match xs {
      case Nil =>
        NoBracesNested("");
      case Cons(h, t) =>
        PrintNested(h);
        PrintItemsNested(t);
        NoBracesNested(", ");
        NestedConcat(", ", PrintItems(t));
        NestedConcat(Print(h), ", " + PrintItems(t));
    }
  }

  lemma {:induction false} PrintFieldsNested(fs: Fields)
    requires FieldsBraceFree(fs)
    ensures Nested(PrintFields(fs))
    decreases fs
  {
    hide Nested;
    match fs {
      case End =>
        NoBracesNested("");
      case Field(k, v, r) =>
        QuotedNested(k);
        PrintNested(v);
        NoBracesNested(": ");
        NestedConcat(": ", Print(v));
        NestedConcat(Quoted(k), ": " + Print(v));
        PrintFieldsNested(r);
        NoBracesNested(", ");
        NestedConcat(", ", PrintFields(r));
        NestedConcat(Member(k, Print(v)), ", " + PrintFields(r));
    }
  }

  // ---- Loading what was stored ----

  predicate AllObjects(xs: Items)
  {
    xs.Cons? ==> xs.head.Obj? && Printable(xs.head) && AllObjects(xs.tail)
  }

  lemma {:induction false} PatchValuesAreObjects(ps: seq<Patch>)
    requires AllPatchesOk(ps)
    ensures AllObjects(PatchValues(ps)) && PatchesOf(PatchValues(ps)) == Some(ps)
  {
    hide PatchOf, PatchValue, Printable;
    if ps != [] {
      PatchRoundTrip(ps[0]);
      PatchValueIsObject(ps[0]);
      PatchValuesAreObjects(ps[1..]);
      assert [ps[0]] + ps[1..] == ps;
    }
  }

  lemma PatchValueIsObject(p: Patch)
    requires p.path != []
    ensures PatchValue(p).Obj?
  {
  }

  lemma ItemsStep(t: string, i: nat, v: Value, n: nat)
    requires i <= |t| && ReadValue(t, i) == Ok(Read(v, n)) && At(t, n, SEPARATOR) && n + 2 < |t| && !IsSpace(t[n + 2])
    ensures ReadItems(t, i) == match ReadItems(t, n + 2)
                               case Ok(Read(xs, e)) => Ok(Read(Cons(v, xs), e))
                               case Err => Err
  {
    hide ReadValue;
    AtIndex(t, n, SEPARATOR, 0);
    AtIndex(t, n, SEPARATOR, 1);
    SkipNothing(t, n);
    SkipOne(t, n + 1);
  }

  /** The parts of a line followed by more. */
  lemma LineAt(t: string, i: nat, head: Value, rest: string)
    requires head.Obj? && At(t, i, Print(head) + (SEPARATOR + rest))
    ensures At(t, i, Print(head)) && At(t, i + |Print(head)|, SEPARATOR) && At(t, i + |Print(head)| + 2, rest)
  {
    hide At, Print;
    AtSplit(t, i, Print(head), SEPARATOR + rest);
    AtSplit(t, i + |Print(head)|, SEPARATOR, rest);
  }

  lemma {:induction false} ReadLines(t: string, i: nat, head: Value, tail: Items)
    requires AllObjects(Cons(head, tail)) && At(t, i, Lines(head, tail) + "]")
    ensures ReadItems(t, i) == Ok(Read(Cons(head, tail), i + |Lines(head, tail)| + 1))
    decreases tail
  {
    hide At, Print, ReadItems, ReadValue, Skip, Printable;
    var p := Print(head);
    var n := i + |p|;
    if tail.Nil? {
      assert Lines(head, tail) + "]" == p + "]";
      AtSplit(t, i, p, "]");
      AtIndex(t, n, "]", 0);
      ReadOfPrint(t, i, head);
      ReadItemsLast(t, i, head, n);
    } else {
      var rest := Lines(tail.head, tail.tail) + "]";
      assert Lines(head, tail) + "]" == p + (SEPARATOR + rest);
      LineAt(t, i, head, rest);
      AtIndex(t, n, SEPARATOR, 0);
      PrintStart(tail.head);
      AtIndex(t, n + 2, rest, 0);
      ReadOfPrint(t, i, head);
      ReadLines(t, n + 2, tail.head, tail.tail);
      ItemsStep(t, i, head, n);
    }
  }

  lemma ItemsComma(t: string, i: nat, v: Value, n: nat)
    requires i <= |t| && ReadValue(t, i) == Ok(Read(v, n)) && n < |t| && t[n] == ','
    ensures ReadItems(t, Skip(t, n + 1)).Err? ==> ReadItems(t, i).Err?
  {
    hide ReadValue;
    SkipNothing(t, n);
  }

  /** A list that goes wrong behind some lines and a comma goes wrong as a whole. */
  lemma {:induction false} ReadBrokenLines(t: string, i: nat, head: Value, tail: Items, rest: string)
    requires AllObjects(Cons(head, tail)) && At(t, i, Lines(head, tail) + ("," + rest))
    requires var e := i + |Lines(head, tail)| + 1; e <= |t| && ReadItems(t, Skip(t, e)).Err?
    ensures ReadItems(t, i).Err?
    decreases tail
  {
    hide At, Print, ReadItems, ReadValue, Skip, Printable;
    var p := Print(head);
    var n := i + |p|;
    if tail.Nil? {
      assert Lines(head, tail) + ("," + rest) == p + ("," + rest);
      AtSplit(t, i, p, "," + rest);
      AtIndex(t, n, "," + rest, 0);
    } else {
      var more := Lines(tail.head, tail.tail) + ("," + rest);
      assert Lines(head, tail) + ("," + rest) == p + (SEPARATOR + more);
      LineAt(t, i, head, more);
      AtIndex(t, n, SEPARATOR, 0);
      AtIndex(t, n, SEPARATOR, 1);
      PrintStart(tail.head);
      AtIndex(t, n + 2, more, 0);
      SkipOne(t, n + 1);
      ReadBrokenLines(t, n + 2, tail.head, tail.tail, rest);
    }
    ReadOfPrint(t, i, head);
    ItemsComma(t, i, head, n);
  }

  function Bracketed(s: string): string { "[" + (s + "]") }

  lemma BracketedAt(s: string)
    requires s != [] && s[0] == '{'
    ensures var t := Bracketed(s);
            |t| == |s| + 2 && t[0] == '[' && t[1] == '{' && At(t, 1, s + "]") && Skip(t, 0) == 0 && Skip(t, 1) == 1
    ensures ReadItems(Bracketed(s), 1).Err? ==> Loads(Bracketed(s)).Err?
    ensures forall xs :: ReadItems(Bracketed(s), 1) == Ok(Read(xs, |s| + 2)) ==> Loads(Bracketed(s)) == Ok(Arr(xs))
  {
    var t := Bracketed(s);
    assert t[1..1 + |s + "]"|] == s + "]";
    SkipNothing(t, 0);
    SkipNothing(t, 1);
    hide ReadItems, ReadFields, ReadString;
  }

  lemma LinesStart(head: Value, tail: Items)
    requires head.Obj?
    ensures Lines(head, tail) != [] && Lines(head, tail)[0] == '{'
  {
    PrintStart(head);
  }

  /** A snapshot and complete records load as the snapshot with the records applied. */
  lemma LoadOfLines(head: Value, tail: Items)
    requires AllObjects(Cons(head, tail))
    ensures LoadData(Lines(head, tail)) == Applied(head, tail)
  {
    hide Lines, ReadItems, Loads, At, Applied;
    var s := Lines(head, tail);
    LinesStart(head, tail);
    BracketedAt(s);
    ReadLines(Bracketed(s), 1, head, tail);
    assert Loads(Bracketed(s)) == Ok(Arr(Cons(head, tail)));
    assert Bracketed(s) == "[" + (s + "]");
  }

  lemma LoadOfJournal(snapshot: Value, ps: seq<Patch>)
    requires snapshot.Obj? && Printable(snapshot) && AllPatchesOk(ps)
    ensures LoadData(JournalText(snapshot, ps)) == Replay(snapshot, ps)
  {
    hide LoadData, Lines;
    PatchValuesAreObjects(ps);
    LoadOfLines(snapshot, PatchValues(ps));
  }

  // ---- A torn append ----

  lemma PartialIsPrefix(before: string, x: string, m: nat, n: nat)
    requires m <= |x| && n <= |before| + m
    ensures SameUpTo(before + (x[..m] + "]"), before + x, n)
  {
    var t, u := before + (x[..m] + "]"), before + x;
    assert t[..|before| + m] == u[..|before| + m];
    SameUpToLess(t, u, |before| + m, n);
  }

  lemma AtBehind(before: string, x: string)
    ensures At(before + x, |before|, x)
  {
  }

  /** The first m characters of a record and a bracket cannot be read as a list. */
  lemma PartialIsBroken(before: string, v: Value, m: nat)
    requires v.Obj? && Printable(v) && 0 < m < |Print(v)|
    ensures ReadItems(before + (Print(v)[..m] + "]"), |before|).Err?
  {
    hide ReadValue, Print, SameUpTo, At, Printable, Skip;
    var x := Print(v);
    var k := |before|;
    var t := before + (x[..m] + "]");
    PrintStart(v);
    assert t[k] == '{' && t[|t| - 1] == ']';
    if ReadValue(t, k).Ok? {
      var n := ReadValue(t, k).value.next;
      ObjectEndsInBrace(t, k);
      PartialIsPrefix(before, x, m, n);
      ReadValueSame(t, before + x, k, n);
      AtBehind(before, x);
      ReadOfPrint(before + x, k, v);
    }
  }

  lemma TornIsUnparsable(head: Value, tail: Items, v: Value, m: nat)
    requires AllObjects(Cons(head, tail)) && v.Obj? && Printable(v) && 0 < m < |Print(v)|
    ensures Loads(Bracketed(Lines(head, tail) + (SEPARATOR + Print(v)[..m]))).Err?
  {
    hide ReadItems, ReadValue, Lines, Print, At, Loads;
    var part := Print(v)[..m];
    var s := Lines(head, tail) + (SEPARATOR + part);
    LinesStart(head, tail);
    BracketedAt(s);
    var t := Bracketed(s);
    var before := "[" + (Lines(head, tail) + SEPARATOR);
    assert t == before + (part + "]");
    PartialIsBroken(before, v, m);
    var rest := "\n" + (part + "]");
    assert s + "]" == Lines(head, tail) + ("," + rest);
    var e := 1 + |Lines(head, tail)| + 1;
    PrintStart(v);
    assert t[e] == '\n' && t[e + 1] == '{';
    SkipOne(t, e);
    ReadBrokenLines(t, 1, head, tail, rest);
  }

  lemma {:induction false} AppendedNested(xs: Items)
    requires ItemsBraceFree(xs)
    ensures Nested(Appended(xs))
    decreases xs
  {
    hide Nested;
    match xs {
      case Nil => NoBracesNested("");
      case Cons(h, t) =>
        PrintNested(h);
        AppendedNested(t);
        NestedConcat(Print(h), Appended(t));
        NoBracesNested(SEPARATOR);
        NestedConcat(SEPARATOR, Print(h) + Appended(t));
    }
  }

  lemma LinesNested(head: Value, tail: Items)
    requires BraceFree(head) && ItemsBraceFree(tail)
    ensures Nested(Lines(head, tail))
  {
    hide Nested;
    PrintNested(head);
    AppendedNested(tail);
    NestedConcat(Print(head), Appended(tail));
  }

  /** The depth inside a partial record is at least one. */
  lemma PartialDepth(v: Value, i: nat)
    requires v.Obj? && BraceFree(v) && 0 < i < |Print(v)|
    ensures DepthAt(Print(v), i) > 0
  {
    PrintFieldsNested(v.fields);
    BracedDepth(PrintFields(v.fields), i);
  }

  lemma {:induction false} DepthOfPrefix(s: string, m: nat, i: nat)
    requires i <= m <= |s|
    ensures DepthAt(s[..m], i) == DepthAt(s, i)
  {
    if i > 0 {
      DepthOfPrefix(s, m, i - 1);
    }
  }

  /** The backward scan stops exactly in front of the partial record, also when complete ones follow it. */
  lemma ScanFindsPartial(whole: string, v: Value, m: nat, more: string)
    requires Nested(whole) && v.Obj? && BraceFree(v) && 0 < m < |Print(v)| && Nested(more)
    ensures var s := whole + (SEPARATOR + (Print(v)[..m] + more));
            DepthAt(s, |s|) > 0 && CutPoint(s, |s|) == |whole| + 2
  {
    hide Nested, Print, BraceFree;
    var part := Print(v)[..m];
    var s := whole + (SEPARATOR + (part + more));
    var c := |whole| + 2;
    forall k | c <= k <= |s| ensures if k == c then DepthAt(s, k) == 0 else DepthAt(s, k) > 0 {
      DepthOfConcat(whole, SEPARATOR + (part + more), k);
      DepthOfConcat(SEPARATOR, part + more, k - |whole|);
      DepthOfConcat(part, more, k - c);
      NoBracesDepth(SEPARATOR, 2);
      NestedDepth(whole, |whole|);
      var i := if k - c <= m then k - c else m;
      DepthOfPrefix(Print(v), m, i);
      if k > c {
        PartialDepth(v, i);
      }
      if k - c > m {
        NestedDepth(more, k - c - m);
      }
    }
    CutPointIs(s, |s|, c);
  }

  lemma NestedDepth(s: string, i: nat)
    requires Nested(s) && i <= |s|
    ensures DepthAt(s, i) >= 0 && DepthAt(s, |s|) == 0
  {
  }

  /** What is loaded when recovery has found a state. */
  function Recovered(r: Result<Value>): Result<Value>
  {
    if r == Ok(Obj(End)) then Err else r
  }

  lemma LoadOfUnparsable(s: string, c: nat)
    requires s != "" && Loads(Bracketed(s)).Err?
    requires DepthAt(s, |s|) > 0 && CutPoint(s, |s|) == c && 2 <= c && s[c - 2..c] == SEPARATOR
    ensures LoadData(s) == Recovered(LoadData(s[..c - 2]))
  {
    hide Loads, CutPoint, DepthAt;
  }

  /** A snapshot, k complete records and a non-empty part of one more load as the state after k records, as long as
      that state is not empty. */
  lemma LoadOfTornRecord(head: Value, tail: Items, v: Value, m: nat)
    requires AllObjects(Cons(head, tail)) && BraceFree(head) && ItemsBraceFree(tail)
    requires v.Obj? && Printable(v) && BraceFree(v) && 0 < m < |Print(v)|
    ensures LoadData(Lines(head, tail) + (SEPARATOR + Print(v)[..m])) == Recovered(Applied(head, tail))
  {
    hide LoadData, Lines, Print, Loads, Applied, DepthAt, CutPoint, Nested;
    var whole := Lines(head, tail);
    var s := whole + (SEPARATOR + Print(v)[..m]);
    TornIsUnparsable(head, tail, v, m);
    LinesNested(head, tail);
    NoBracesNested("");
    ScanFindsPartial(whole, v, m, "");
    assert Print(v)[..m] + "" == Print(v)[..m];
    var c := |whole| + 2;
    assert s[c - 2..c] == SEPARATOR && s[..c - 2] == whole;
    LoadOfUnparsable(s, c);
    LoadOfLines(head, tail);
  }

  /** When the text cannot be parsed, it loads as the state in front of the partial record. */
  lemma UnparsableTailIsLost(head: Value, tail: Items, v: Value, m: nat, more: Items)
    requires AllObjects(Cons(head, tail)) && BraceFree(head) && ItemsBraceFree(tail) && ItemsBraceFree(more)
    requires v.Obj? && Printable(v) && BraceFree(v) && 0 < m < |Print(v)|
    requires Loads(Bracketed(Lines(head, tail) + (SEPARATOR + (Print(v)[..m] + Appended(more))))).Err?
    ensures LoadData(Lines(head, tail) + (SEPARATOR + (Print(v)[..m] + Appended(more)))) ==
            Recovered(Applied(head, tail))
  {
    hide LoadData, Lines, Print, Loads, Applied, DepthAt, CutPoint, Nested;
    var whole := Lines(head, tail);
    var s := whole + (SEPARATOR + (Print(v)[..m] + Appended(more)));
    LinesNested(head, tail);
    AppendedNested(more);
    ScanFindsPartial(whole, v, m, Appended(more));
    var c := |whole| + 2;
    assert s[c - 2..c] == SEPARATOR && s[..c - 2] == whole;
    LoadOfUnparsable(s, c);
    LoadOfLines(head, tail);
  }

  /** A bracket is not a value. */
  lemma BracketIsNoValue(t: string, i: nat)
    requires i < |t| && t[i] == ']'
    ensures ReadItems(t, i).Err?
  {
    AtStart(t, i, "null");
    AtStart(t, i, "true");
    AtStart(t, i, "false");
    hide At;
  }

  /** An append torn inside its separator leaves a text that cannot be loaded. */
  lemma LoadOfTornSeparator(head: Value, tail: Items, m: nat)
    requires AllObjects(Cons(head, tail)) && BraceFree(head) && ItemsBraceFree(tail) && 1 <= m <= 2
    ensures LoadData(Lines(head, tail) + SEPARATOR[..m]) == Err
  {
    hide ReadItems, ReadValue, Lines, Print, At, Loads, DepthAt, Nested;
    var whole := Lines(head, tail);
    var s := whole + SEPARATOR[..m];
    LinesStart(head, tail);
    BracketedAt(s);
    var t := Bracketed(s);
    var rest := SEPARATOR[1..m] + "]";
    assert s + "]" == whole + ("," + rest);
    var e := 1 + |whole| + 1;
    if m == 1 {
      assert t[e] == ']';
      SkipNothing(t, e);
    } else {
      assert t[e] == '\n' && t[e + 1] == ']';
      SkipOne(t, e);
    }
    BracketIsNoValue(t, Skip(t, e));
    ReadBrokenLines(t, 1, head, tail, rest);
    LinesNested(head, tail);
    NoBracesNested(SEPARATOR[..m]);
    NestedConcat(whole, SEPARATOR[..m]);
    BalancedIsUnrecoverable(s);
  }

  lemma BalancedIsUnrecoverable(s: string)
    requires s != "" && Nested(s) && Loads(Bracketed(s)).Err?
    ensures LoadData(s) == Err
  {
    hide Loads;
  }

  lemma CommaIsNoValue(t: string, i: nat)
    requires i < |t| && t[i] == ','
    ensures ReadItems(t, i).Err?
  {
    AtStart(t, i, "null");
    AtStart(t, i, "true");
    AtStart(t, i, "false");
    hide At;
  }

  /** Records appended to an empty entry, without a snapshot in front, cannot be loaded. */
  lemma LoadWithoutSnapshot(xs: Items)
    requires xs.Cons? && ItemsBraceFree(xs)
    ensures LoadData(Appended(xs)) == Err
  {
    var s := Appended(xs);
    var t := Bracketed(s);
    assert s[0] == ',' && t[0] == '[' && t[1] == ',';
    AppendedNested(xs);
    hide Appended, ReadFields, ReadString, At, Nested;
    SkipNothing(t, 0);
    SkipNothing(t, 1);
    CommaIsNoValue(t, 1);
    BalancedIsUnrecoverable(s);
  }
}
