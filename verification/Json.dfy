/** JSON values with ordered fields, the compact text json.dumps writes, and json.loads. */
module Json {
  import opened Common
  import opened Decimal
  import opened JsonString

  datatype Value = Null | Bool(b: bool) | Num(n: int) | Str(s: string) | Arr(items: Items) | Obj(fields: Fields)

  datatype Items = Nil | Cons(head: Value, tail: Items)

  /** A dictionary in insertion order. */
  datatype Fields = End | Field(key: string, value: Value, rest: Fields)

  predicate HasKey(fs: Fields, key: string)
  {
    fs.Field? && (fs.key == key || HasKey(fs.rest, key))
  }

  // ---- The text ----

  /** No key twice in a dictionary. */
  predicate Printable(v: Value)
  {
    match v
    case Arr(items) => AllPrintable(items)
    case Obj(fields) => FieldsPrintable(fields)
    case _ => true
  }

  predicate AllPrintable(xs: Items)
  {
    xs.Cons? ==> Printable(xs.head) && AllPrintable(xs.tail)
  }

  predicate FieldsPrintable(fs: Fields)
  {
    fs.Field? ==> !HasKey(fs.rest, fs.key) && Printable(fs.value) && FieldsPrintable(fs.rest)
  }

  function IntText(n: int): string
  {
    if n < 0 then "-" + NatText(-n) else NatText(n)
  }

  /** json.dumps */
  function Print(v: Value): string
  {
    match v
    case Null => "null"
    case Bool(b) => if b then "true" else "false"
    case Num(n) => IntText(n)
    case Str(s) => Quoted(s)
    case Arr(items) => "[" + (PrintItems(items) + "]")
    case Obj(fields) => "{" + (PrintFields(fields) + "}")
  }

  function PrintItems(xs: Items): string
  {
    match xs
    case Nil => ""
    case Cons(h, t) => if t.Nil? then Print(h) else Print(h) + (", " + PrintItems(t))
  }

  function Member(key: string, value: string): string
  {
    Quoted(key) + (": " + value)
  }

  function PrintFields(fs: Fields): string
  {
    match fs
    case End => ""
    case Field(k, v, r) => if r.End? then Member(k, Print(v)) else Member(k, Print(v)) + (", " + PrintFields(r))
  }

  // ---- The reader ----

  predicate IsSpace(c: char) { c == ' ' || c == '\t' || c == '\n' || c == '\r' }

  function Skip(t: string, i: nat): (j: nat)
    requires i <= |t|
    ensures i <= j <= |t| && (j < |t| ==> !IsSpace(t[j])) && forall k :: i <= k < j ==> IsSpace(t[k])
    decreases |t| - i
  {
    if i < |t| && IsSpace(t[i]) then Skip(t, i + 1) else i
  }

  function ReadNat(t: string, i: nat): (r: Result<Read<nat>>)
    requires i <= |t|
    ensures r.Ok? ==> i < r.value.next <= |t|
  {
    if i == |t| || !IsDigit(t[i]) then Err
    else if t[i] == '0' then Ok(Read(0, i + 1))
    else
      var e := DigitsEnd(t, i + 1);
      Ok(Read(NatOf(t[i..e]), e))
  }

  function ReadNumber(t: string, i: nat): (r: Result<Read<Value>>)
    requires i <= |t|
    ensures r.Ok? ==> i < r.value.next <= |t| && r.value.value.Num?
  {
    if i < |t| && t[i] == '-' then
      match ReadNat(t, i + 1) {
        case Err => Err
        case Ok(Read(n, e)) => Ok(Read(Num(0 - n), e))
      }
    else match ReadNat(t, i) {
      case Err => Err
      case Ok(Read(n, e)) => Ok(Read(Num(n), e))
    }
  }

  /** dict(pairs) behind an earlier pair: a later value for the same key replaces the earlier one in place. */
  function AddFront(key: string, v: Value, fs: Fields): Fields
  {
    if HasKey(fs, key) then Field(key, ValueAt(fs, key), Without(fs, key)) else Field(key, v, fs)
  }

  function ValueAt(fs: Fields, key: string): Value
    requires HasKey(fs, key)
  {
    if fs.key == key then fs.value else ValueAt(fs.rest, key)
  }

  function Without(fs: Fields, key: string): Fields
  {
    if fs.End? then End else if fs.key == key then fs.rest else Field(fs.key, fs.value, Without(fs.rest, key))
  }

  function ReadValue(t: string, i: nat): (r: Result<Read<Value>>)
    requires i <= |t|
    ensures r.Ok? ==> i < r.value.next <= |t|
    decreases |t| - i, 1
  {
    if i == |t| then Err
    else if t[i] == '"' then
      match ReadString(t, i + 1) {
        case Err => Err
        case Ok(Read(s, n)) => Ok(Read(Str(s), n))
      }
    else if t[i] == '{' then
      var j := Skip(t, i + 1);
      if j < |t| && t[j] == '}' then Ok(Read(Obj(End), j + 1))
      else match ReadFields(t, j) {
        case Err => Err
        case Ok(Read(fs, n)) => Ok(Read(Obj(fs), n))
      }
    else if t[i] == '[' then
      var j := Skip(t, i + 1);
      if j < |t| && t[j] == ']' then Ok(Read(Arr(Nil), j + 1))
      else match ReadItems(t, j) {
        case Err => Err
        case Ok(Read(xs, n)) => Ok(Read(Arr(xs), n))
      }
    else if At(t, i, "null") then Ok(Read(Null, i + 4))
    else if At(t, i, "true") then Ok(Read(Bool(true), i + 4))
    else if At(t, i, "false") then Ok(Read(Bool(false), i + 5))
    else ReadNumber(t, i)
  }

  /** One or more items and the closing bracket. */
  function ReadItems(t: string, i: nat): (r: Result<Read<Items>>)
    requires i <= |t|
    ensures r.Ok? ==> i < r.value.next <= |t|
    decreases |t| - i, 2
  {
    match ReadValue(t, i)
    case Err => Err
    case Ok(Read(v, n)) =>
      var d := Skip(t, n);
      if d == |t| then Err
      else if t[d] == ']' then Ok(Read(Cons(v, Nil), d + 1))
      else if t[d] != ',' then Err
      else match ReadItems(t, Skip(t, d + 1)) {
        case Err => Err
        case Ok(Read(xs, e)) => Ok(Read(Cons(v, xs), e))
      }
  }

  /** A key, a colon and a value. */
  function ReadMember(t: string, i: nat): (r: Result<Read<(string, Value)>>)
    requires i <= |t|
    ensures r.Ok? ==> i < r.value.next <= |t|
    decreases |t| - i, 2
  {
    if i == |t| || t[i] != '"' then Err
    else match ReadString(t, i + 1) {
      case Err => Err
      case Ok(Read(k, n)) =>
        var c := Skip(t, n);
        if c == |t| || t[c] != ':' then Err
        else match ReadValue(t, Skip(t, c + 1)) {
          case Err => Err
          case Ok(Read(v, e)) => Ok(Read((k, v), e))
        }
    }
  }

  /** One or more members and the closing brace. */
  function ReadFields(t: string, i: nat): (r: Result<Read<Fields>>)
    requires i <= |t|
    ensures r.Ok? ==> i < r.value.next <= |t|
    decreases |t| - i, 3
  {
    match ReadMember(t, i)
    case Err => Err
    case Ok(Read((k, v), n)) =>
      var d := Skip(t, n);
      if d == |t| then Err
      else if t[d] == '}' then Ok(Read(Field(k, v, End), d + 1))
      else if t[d] != ',' then Err
      else match ReadFields(t, Skip(t, d + 1)) {
        case Err => Err
        case Ok(Read(fs, e)) => Ok(Read(AddFront(k, v, fs), e))
      }
  }

  /** json.loads */
  function Loads(t: string): Result<Value>
  {
    match ReadValue(t, Skip(t, 0))
    case Err => Err
    case Ok(Read(v, n)) => if Skip(t, n) == |t| then Ok(v) else Err
  }

  // ---- Reading back what was printed ----

  lemma ReadNatOfText(t: string, i: nat, n: nat)
    requires At(t, i, NatText(n)) && (i + |NatText(n)| < |t| ==> !IsDigit(t[i + |NatText(n)|]))
    ensures ReadNat(t, i) == Ok(Read(n, i + |NatText(n)|))
  {
    var s := NatText(n);
    var e := i + |s|;
    forall k | i <= k < e ensures t[k] == s[k - i] {
      AtIndex(t, i, s, k - i);
    }
    if n > 0 {
      DigitsEndIs(t, i + 1, e);
      NatOfText(n);
    }
  }

  /** What may stand behind a printed value: a number must not run on. */
  predicate Ends(t: string, i: nat, v: Value)
    requires i <= |t|
  {
    v.Num? && i < |t| ==> !IsDigit(t[i])
  }

  /** The first character of a printed value. */
  lemma PrintStart(v: Value)
    ensures Print(v) != [] && !IsSpace(Print(v)[0]) && Print(v)[0] !in {'}', ']'}
    ensures Print(v)[0] == '"' <==> v.Str?
    ensures Print(v)[0] == '{' <==> v.Obj?
    ensures Print(v)[0] == '[' <==> v.Arr?
    ensures Print(v)[0] == 'n' <==> v.Null?
    ensures Print(v)[0] in {'t', 'f'} <==> v.Bool?
  {
  }

  lemma SkipNothing(t: string, i: nat)
    requires i < |t| && !IsSpace(t[i])
    ensures Skip(t, i) == i
  {
  }

  lemma SkipOne(t: string, i: nat)
    requires i + 1 < |t| && IsSpace(t[i]) && !IsSpace(t[i + 1])
    ensures Skip(t, i) == i + 1
  {
    SkipNothing(t, i + 1);
  }

  lemma AtStart(t: string, i: nat, s: string)
    requires s != []
    ensures At(t, i, s) ==> t[i] == s[0]
  {
    if At(t, i, s) {
      AtIndex(t, i, s, 0);
    }
  }

  lemma ReadNumberOfText(t: string, i: nat, n: int)
    requires At(t, i, IntText(n)) && (i + |IntText(n)| < |t| ==> !IsDigit(t[i + |IntText(n)|]))
    ensures ReadNumber(t, i) == Ok(Read(Num(n), i + |IntText(n)|))
  {
    hide NatText, ReadNat, At;
    AtIndex(t, i, IntText(n), 0);
    if n < 0 {
      AtSplit(t, i, "-", NatText(-n));
      ReadNatOfText(t, i + 1, -n);
    } else {
      ReadNatOfText(t, i, n);
    }
  }

  lemma ReadStrOfPrint(t: string, i: nat, s: string)
    requires At(t, i, Quoted(s))
    ensures ReadValue(t, i) == Ok(Read(Str(s), i + |Quoted(s)|))
  {
    hide ReadItems, ReadFields, ReadString, ReadNumber, Escaped, At;
    assert Quoted(s) == "\"" + (Escaped(s) + "\"");
    AtIndex(t, i, Quoted(s), 0);
    AtSplit(t, i, "\"", Escaped(s) + "\"");
    ReadStringOfQuoted(t, i + 1, s);
  }

  lemma ReadScalarOfPrint(t: string, i: nat, v: Value)
    requires !v.Arr? && !v.Obj? && Printable(v) && At(t, i, Print(v)) && Ends(t, i + |Print(v)|, v)
    ensures ReadValue(t, i) == Ok(Read(v, i + |Print(v)|))
  {
    hide ReadItems, ReadFields, ReadString, ReadNumber, IntText, Quoted, At;
    PrintStart(v);
    AtIndex(t, i, Print(v), 0);
    AtStart(t, i, "null");
    AtStart(t, i, "true");
    AtStart(t, i, "false");
    match v {
      case Null =>
      case Bool(b) =>
      case Num(n) =>
        ReadNumberOfText(t, i, n);
      case Str(s) =>
        ReadStrOfPrint(t, i, s);
    }
  }

  lemma ReadArrOfItems(t: string, i: nat, xs: Items)
    requires At(t, i, "[" + (PrintItems(xs) + "]"))
    requires xs.Cons? ==> ReadItems(t, i + 1) == Ok(Read(xs, i + 1 + |PrintItems(xs)| + 1))
    ensures ReadValue(t, i) == Ok(Read(Arr(xs), i + |PrintItems(xs)| + 2))
  {
    hide ReadItems, ReadFields, Print, ReadNumber, At, Skip;
    AtIndex(t, i, "[" + (PrintItems(xs) + "]"), 0);
    AtSplit(t, i, "[", PrintItems(xs) + "]");
    if xs.Cons? {
      ItemsStart(t, i + 1, xs);
    } else {
      AtIndex(t, i + 1, PrintItems(xs) + "]", 0);
      SkipNothing(t, i + 1);
    }
  }

  lemma ReadObjOfFields(t: string, i: nat, fs: Fields)
    requires At(t, i, "{" + (PrintFields(fs) + "}"))
    requires fs.Field? ==> ReadFields(t, i + 1) == Ok(Read(fs, i + 1 + |PrintFields(fs)| + 1))
    ensures ReadValue(t, i) == Ok(Read(Obj(fs), i + |PrintFields(fs)| + 2))
  {
    hide ReadItems, ReadFields, Print, ReadNumber, At, Skip;
    AtIndex(t, i, "{" + (PrintFields(fs) + "}"), 0);
    AtSplit(t, i, "{", PrintFields(fs) + "}");
    if fs.Field? {
      FieldsStart(t, i + 1, fs);
    } else {
      AtIndex(t, i + 1, PrintFields(fs) + "}", 0);
      SkipNothing(t, i + 1);
    }
  }

  lemma {:induction false} ReadOfPrint(t: string, i: nat, v: Value)
    requires Printable(v) && At(t, i, Print(v)) && Ends(t, i + |Print(v)|, v)
    ensures ReadValue(t, i) == Ok(Read(v, i + |Print(v)|))
    decreases v, 0
  {
    hide ReadValue, ReadItems, ReadFields, At;
    match v {
      case Arr(items) =>
        if items.Cons? {
          AtSplit(t, i, "[", PrintItems(items) + "]");
          ReadItemsOfPrint(t, i + 1, items);
        }
        ReadArrOfItems(t, i, items);
      case Obj(fields) =>
        if fields.Field? {
          AtSplit(t, i, "{", PrintFields(fields) + "}");
          ReadFieldsOfPrint(t, i + 1, fields);
        }
        ReadObjOfFields(t, i, fields);
      case _ =>
        ReadScalarOfPrint(t, i, v);
    }
  }

  /** The separator behind an item or member. */
  lemma SeparatorAt(t: string, i: nat)
    requires At(t, i, ", ") && i + 2 < |t| && !IsSpace(t[i + 2])
    ensures t[i] == ',' && Skip(t, i) == i && Skip(t, i + 1) == i + 2
  {
    AtIndex(t, i, ", ", 0);
    AtIndex(t, i, ", ", 1);
    SkipNothing(t, i);
    SkipOne(t, i + 1);
  }

  lemma ItemsStart(t: string, i: nat, xs: Items)
    requires xs.Cons? && At(t, i, PrintItems(xs) + "]")
    ensures i < |t| && !IsSpace(t[i]) && t[i] != ']' && Skip(t, i) == i
  {
    PrintStart(xs.head);
    AtIndex(t, i, PrintItems(xs) + "]", 0);
    SkipNothing(t, i);
  }

  lemma FieldsStart(t: string, i: nat, fs: Fields)
    requires fs.Field? && At(t, i, PrintFields(fs) + "}")
    ensures i < |t| && t[i] == '"' && Skip(t, i) == i
  {
    AtIndex(t, i, PrintFields(fs) + "}", 0);
    SkipNothing(t, i);
  }

  lemma ReadItemsLast(t: string, i: nat, v: Value, n: nat)
    requires i <= |t| && ReadValue(t, i) == Ok(Read(v, n)) && At(t, n, "]")
    ensures ReadItems(t, i) == Ok(Read(Cons(v, Nil), n + 1))
  {
    hide ReadValue;
    AtIndex(t, n, "]", 0);
    SkipNothing(t, n);
  }

  lemma ReadItemsMore(t: string, i: nat, v: Value, n: nat, xs: Items, e: nat)
    requires i <= |t| && ReadValue(t, i) == Ok(Read(v, n))
    requires At(t, n, ", ") && n + 2 < |t| && !IsSpace(t[n + 2])
    requires ReadItems(t, n + 2) == Ok(Read(xs, e))
    ensures ReadItems(t, i) == Ok(Read(Cons(v, xs), e))
  {
    hide ReadValue;
    SeparatorAt(t, n);
  }

  lemma {:induction false} ReadItemsOfPrint(t: string, i: nat, xs: Items)
    requires xs.Cons? && AllPrintable(xs) && At(t, i, PrintItems(xs) + "]")
    ensures ReadItems(t, i) == Ok(Read(xs, i + |PrintItems(xs)| + 1))
    decreases xs, 1
  {
    hide ReadValue, ReadItems, Print, Printable, At, Skip;
    var p := Print(xs.head);
    var n := i + |p|;
    if xs.tail.Nil? {
      AtSplit(t, i, p, "]");
      AtIndex(t, n, "]", 0);
      ReadOfPrint(t, i, xs.head);
      ReadItemsLast(t, i, xs.head, n);
    } else {
      var rest := PrintItems(xs.tail) + "]";
      assert PrintItems(xs) + "]" == p + (", " + rest);
      AtSplit(t, i, p, ", " + rest);
      AtSplit(t, n, ", ", rest);
      AtIndex(t, n, ", ", 0);
      ItemsStart(t, n + 2, xs.tail);
      ReadItemsOfPrint(t, n + 2, xs.tail);
      ReadOfPrint(t, i, xs.head);
      ReadItemsMore(t, i, xs.head, n, xs.tail, n + 2 + |PrintItems(xs.tail)| + 1);
    }
  }

  /** What a member consists of, and where its parts stand. */
  lemma MemberAt(t: string, i: nat, key: string, value: string)
    requires At(t, i, Member(key, value)) && value != [] && !IsSpace(value[0])
    ensures t[i] == '"' && At(t, i + 1, Escaped(key) + "\"")
    ensures var n := i + |Quoted(key)|; Skip(t, n) == n && t[n] == ':' && Skip(t, n + 1) == n + 2 && At(t, n + 2, value)
  {
    hide At, Skip, Escaped;
    AtSplit(t, i, Quoted(key), ": " + value);
    assert Quoted(key) == "\"" + (Escaped(key) + "\"");
    AtSplit(t, i, "\"", Escaped(key) + "\"");
    AtIndex(t, i, "\"", 0);
    var n := i + |Quoted(key)|;
    AtSplit(t, n, ": ", value);
    AtIndex(t, n, ": ", 0);
    AtIndex(t, n, ": ", 1);
    AtIndex(t, n + 2, value, 0);
    SkipNothing(t, n);
    SkipOne(t, n + 1);
  }

  lemma {:induction false} ReadMemberOfPrint(t: string, i: nat, key: string, v: Value)
    requires Printable(v) && At(t, i, Member(key, Print(v)))
    requires Ends(t, i + |Member(key, Print(v))|, v)
    ensures ReadMember(t, i) == Ok(Read((key, v), i + |Member(key, Print(v))|))
    decreases v, 1
  {
    PrintStart(v);
    hide ReadValue, ReadString, Print, Printable, Escaped, At, Skip;
    MemberAt(t, i, key, Print(v));
    ReadStringOfQuoted(t, i + 1, key);
    ReadOfPrint(t, i + |Quoted(key)| + 2, v);
  }

  lemma ReadFieldsLast(t: string, i: nat, k: string, v: Value, n: nat)
    requires i <= |t| && ReadMember(t, i) == Ok(Read((k, v), n)) && At(t, n, "}")
    ensures ReadFields(t, i) == Ok(Read(Field(k, v, End), n + 1))
  {
    hide ReadMember;
    AtIndex(t, n, "}", 0);
    SkipNothing(t, n);
  }

  lemma ReadFieldsMore(t: string, i: nat, k: string, v: Value, n: nat, fs: Fields, e: nat)
    requires i <= |t| && ReadMember(t, i) == Ok(Read((k, v), n))
    requires At(t, n, ", ") && n + 2 < |t| && !IsSpace(t[n + 2])
    requires ReadFields(t, n + 2) == Ok(Read(fs, e)) && !HasKey(fs, k)
    ensures ReadFields(t, i) == Ok(Read(Field(k, v, fs), e))
  {
    hide ReadMember;
    SeparatorAt(t, n);
  }

  lemma {:induction false} ReadFieldsOfPrint(t: string, i: nat, fs: Fields)
    requires fs.Field? && FieldsPrintable(fs) && At(t, i, PrintFields(fs) + "}")
    ensures ReadFields(t, i) == Ok(Read(fs, i + |PrintFields(fs)| + 1))
    decreases fs, 2
  {
    hide ReadMember, ReadFields, Print, Printable, Member, At, Skip;
    var p := Member(fs.key, Print(fs.value));
    var n := i + |p|;
    if fs.rest.End? {
      AtSplit(t, i, p, "}");
      AtIndex(t, n, "}", 0);
      ReadMemberOfPrint(t, i, fs.key, fs.value);
      ReadFieldsLast(t, i, fs.key, fs.value, n);
    } else {
      var rest := PrintFields(fs.rest) + "}";
      assert PrintFields(fs) + "}" == p + (", " + rest);
      AtSplit(t, i, p, ", " + rest);
      AtSplit(t, n, ", ", rest);
      AtIndex(t, n, ", ", 0);
      FieldsStart(t, n + 2, fs.rest);
      ReadFieldsOfPrint(t, n + 2, fs.rest);
      ReadMemberOfPrint(t, i, fs.key, fs.value);
      ReadFieldsMore(t, i, fs.key, fs.value, n, fs.rest, n + 2 + |PrintFields(fs.rest)| + 1);
    }
  }

  /** json.loads inverts json.dumps. */
  lemma LoadsOfPrint(v: Value)
    requires Printable(v)
    ensures Loads(Print(v)) == Ok(v)
  {
    var t := Print(v);
    PrintStart(v);
    SkipNothing(t, 0);
    assert t[0..0 + |t|] == t;
    ReadOfPrint(t, 0, v);
  }

  /** Two values with the same text are the same. */
  lemma PrintIsInjective(v: Value, w: Value)
    requires Printable(v) && Printable(w) && Print(v) == Print(w)
    ensures v == w
  {
    LoadsOfPrint(v);
    LoadsOfPrint(w);
  }

  // ---- What a reader depends on ----

  lemma {:induction false} SkipSame(t: string, u: string, i: nat, j: nat)
    requires SameUpTo(t, u, j) && i <= |t| && Skip(t, i) < j
    ensures Skip(u, i) == Skip(t, i)
    decreases |t| - i
  {
    SameUpToIndex(t, u, j, i);
    if IsSpace(t[i]) {
      SkipSame(t, u, i + 1, j);
    }
  }

  /** A number is read the same when the next character is the same. */
  lemma DigitsEndSame(t: string, u: string, i: nat, j: nat)
    requires i <= |t| && DigitsEnd(t, i) < j && SameUpTo(t, u, j)
    ensures i <= |u| && DigitsEnd(u, i) == DigitsEnd(t, i)
  {
    var e := DigitsEnd(t, i);
    forall k | i <= k <= e ensures t[k] == u[k] {
      SameUpToIndex(t, u, j, k);
    }
    DigitsEndIs(u, i, e);
  }

  lemma ReadNatSame(t: string, u: string, i: nat, j: nat)
    requires i <= |t| && ReadNat(t, i).Ok? && ReadNat(t, i).value.next < j && SameUpTo(t, u, j)
    ensures i <= |u| && ReadNat(u, i) == ReadNat(t, i)
  {
    SameUpToIndex(t, u, j, i);
    if t[i] != '0' {
      DigitsEndSame(t, u, i + 1, j);
      SameSlice(t, u, i, DigitsEnd(t, i + 1), j);
    }
  }

  lemma ReadNumberSame(t: string, u: string, i: nat, j: nat)
    requires i <= |t| && ReadNumber(t, i).Ok? && ReadNumber(t, i).value.next < j && SameUpTo(t, u, j)
    ensures i <= |u| && ReadNumber(u, i) == ReadNumber(t, i)
  {
    hide ReadNat;
    SameUpToIndex(t, u, j, i);
    if t[i] == '-' {
      ReadNatSame(t, u, i + 1, j);
    } else {
      ReadNatSame(t, u, i, j);
    }
  }

  /** How far the texts have to agree for a value that ends at n to be read the same. */
  function Reach(v: Value, n: nat): nat { if v.Arr? || v.Obj? then n else n + 1 }

  lemma LiteralSame(t: string, u: string, i: nat, s: string, j: nat)
    requires SameUpTo(t, u, j) && i + |s| <= j
    ensures At(t, i, s) <==> At(u, i, s)
  {
    SameSlice(t, u, i, i + |s|, j);
  }

  lemma ReadScalarSame(t: string, u: string, i: nat, j: nat)
    requires i < |t| && ReadValue(t, i).Ok? && SameUpTo(t, u, j) && t[i] !in {'"', '{', '['}
    requires ReadValue(t, i).value.next < j
    ensures i <= |u| && ReadValue(u, i) == ReadValue(t, i)
  {
    hide ReadNumber, At, SameUpTo;
    SameUpToIndex(t, u, j, i);
    AtStart(t, i, "null");
    AtStart(t, i, "true");
    AtStart(t, i, "false");
    AtStart(u, i, "null");
    AtStart(u, i, "true");
    AtStart(u, i, "false");
    if At(t, i, "null") {
      LiteralSame(t, u, i, "null", j);
    } else if At(t, i, "true") {
      LiteralSame(t, u, i, "true", j);
    } else if At(t, i, "false") {
      LiteralSame(t, u, i, "false", j);
    } else {
      NumberStart(t, i);
      ReadNumberSame(t, u, i, j);
    }
  }

  lemma NumberStart(t: string, i: nat)
    requires i < |t| && ReadNumber(t, i).Ok?
    ensures t[i] == '-' || IsDigit(t[i])
  {
  }

  /** A value is read the same from every text that agrees as far as it reaches. */
  lemma {:induction false} ReadValueSame(t: string, u: string, i: nat, j: nat)
    requires i <= |t| && ReadValue(t, i).Ok? && SameUpTo(t, u, j)
    requires Reach(ReadValue(t, i).value.value, ReadValue(t, i).value.next) <= j
    ensures i <= |u| && ReadValue(u, i) == ReadValue(t, i)
    decreases |t| - i, 1
  {
    hide ReadItems, ReadFields, ReadString, ReadNumber, SameUpTo, At, Skip;
    SameUpToIndex(t, u, j, i);
    if t[i] == '"' {
      ReadStringSame(t, u, i + 1, j);
    } else if t[i] == '{' {
      SkipSame(t, u, i + 1, j);
      var k := Skip(t, i + 1);
      SameUpToIndex(t, u, j, k);
      if t[k] != '}' {
        ReadFieldsSame(t, u, k, j);
      }
    } else if t[i] == '[' {
      SkipSame(t, u, i + 1, j);
      var k := Skip(t, i + 1);
      SameUpToIndex(t, u, j, k);
      if t[k] != ']' {
        ReadItemsSame(t, u, k, j);
      }
    } else {
      ReadScalarSame(t, u, i, j);
    }
  }

  lemma {:induction false} ReadItemsSame(t: string, u: string, i: nat, j: nat)
    requires i <= |t| && ReadItems(t, i).Ok? && ReadItems(t, i).value.next <= j && SameUpTo(t, u, j)
    ensures i <= |u| && ReadItems(u, i) == ReadItems(t, i)
    decreases |t| - i, 2
  {
    hide ReadValue, SameUpTo, Skip;
    var n := ReadValue(t, i).value.next;
    var d := Skip(t, n);
    ReadValueSame(t, u, i, j);
    SkipSame(t, u, n, j);
    SameUpToIndex(t, u, j, d);
    if t[d] == ',' {
      SkipSame(t, u, d + 1, j);
      ReadItemsSame(t, u, Skip(t, d + 1), j);
    }
  }

  lemma {:induction false} ReadMemberSame(t: string, u: string, i: nat, j: nat)
    requires i <= |t| && ReadMember(t, i).Ok? && ReadMember(t, i).value.next < j && SameUpTo(t, u, j)
    ensures i <= |u| && ReadMember(u, i) == ReadMember(t, i)
    decreases |t| - i, 2
  {
    hide ReadValue, ReadString, SameUpTo, Skip;
    SameUpToIndex(t, u, j, i);
    ReadStringSame(t, u, i + 1, j);
    var n := ReadString(t, i + 1).value.next;
    SkipSame(t, u, n, j);
    SameUpToIndex(t, u, j, Skip(t, n));
    SkipSame(t, u, Skip(t, n) + 1, j);
    ReadValueSame(t, u, Skip(t, Skip(t, n) + 1), j);
  }

  lemma {:induction false} ReadFieldsSame(t: string, u: string, i: nat, j: nat)
    requires i <= |t| && ReadFields(t, i).Ok? && ReadFields(t, i).value.next <= j && SameUpTo(t, u, j)
    ensures i <= |u| && ReadFields(u, i) == ReadFields(t, i)
    decreases |t| - i, 3
  {
    hide ReadMember, SameUpTo, Skip;
    var n := ReadMember(t, i).value.next;
    var d := Skip(t, n);
    ReadMemberSame(t, u, i, j);
    SkipSame(t, u, n, j);
    SameUpToIndex(t, u, j, d);
    if t[d] == ',' {
      SkipSame(t, u, d + 1, j);
      ReadFieldsSame(t, u, Skip(t, d + 1), j);
    }
  }

  /** The text of a dictionary ends with its brace. */
  lemma {:induction false} FieldsEndInBrace(t: string, i: nat)
    requires i <= |t| && ReadFields(t, i).Ok?
    ensures t[ReadFields(t, i).value.next - 1] == '}'
    decreases |t| - i
  {
    hide ReadMember, Skip, AddFront;
    var n := ReadMember(t, i).value.next;
    var d := Skip(t, n);
    if t[d] == ',' {
      FieldsEndInBrace(t, Skip(t, d + 1));
    }
  }

  lemma ObjectEndsInBrace(t: string, i: nat)
    requires i < |t| && t[i] == '{' && ReadValue(t, i).Ok?
    ensures ReadValue(t, i).value.value.Obj? && t[ReadValue(t, i).value.next - 1] == '}'
  {
    hide ReadFields, ReadItems, Skip;
    var j := Skip(t, i + 1);
    if !(j < |t| && t[j] == '}') {
      FieldsEndInBrace(t, j);
    }
  }
}
