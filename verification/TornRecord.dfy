/** A record that was cut off, with more records appended behind it, cannot be read: whatever the cut leaves open is
    never closed. */
module TornRecord {
  import opened Common
  import opened Decimal
  import opened JsonString
  import opened Json
  import opened Journal

  /** The first m characters of a text stand in t at i. */
  predicate Cut(t: string, i: nat, x: string, m: nat)
  {
    m <= |x| && At(t, i, x[..m])
  }

  /** What stands behind the cut at c: a comma, a new line and complete records up to the end. */
  predicate Behind(t: string, c: nat)
  {
    && c + 2 < |t| && t[c] == ',' && t[c + 1] == '\n' && t[c + 2] == '{'
    && (ReadItems(t, c + 2).Ok? ==> ReadItems(t, c + 2).value.next == |t|)
  }

  lemma CutChar(t: string, i: nat, x: string, m: nat, k: nat)
    requires Cut(t, i, x, m) && k < m
    ensures i + m <= |t| && t[i + k] == x[k]
  {
    AtIndex(t, i, x[..m], k);
  }

  lemma CutSplit(t: string, i: nat, a: string, b: string, m: nat)
    requires Cut(t, i, a + b, m)
    ensures m <= |a| ==> Cut(t, i, a, m)
    ensures m >= |a| ==> At(t, i, a) && Cut(t, i + |a|, b, m - |a|)
  {
    if m >= |a| {
      assert (a + b)[..m] == a + b[..m - |a|];
      AtSplit(t, i, a, b[..m - |a|]);
    }
    if m <= |a| {
      assert (a + b)[..m] == a[..m];
    }
  }

  lemma CutWhole(t: string, i: nat, x: string)
    requires Cut(t, i, x, |x|)
    ensures At(t, i, x)
  {
    assert x[..|x|] == x;
  }

  // ---- What cannot begin with a comma or be ended by one ----

  lemma CommaBegins(t: string, i: nat)
    requires i < |t| && t[i] == ','
    ensures ReadValue(t, i).Err? && ReadItems(t, i).Err? && ReadFields(t, i).Err? && Skip(t, i) == i
  {
    AtStart(t, i, "null");
    AtStart(t, i, "true");
    AtStart(t, i, "false");
    SkipNothing(t, i);
    hide At;
  }

  lemma SkipsToRecords(t: string, c: nat)
    requires Behind(t, c)
    ensures Skip(t, c) == c && Skip(t, c + 1) == c + 2
  {
    hide ReadItems;
    SkipNothing(t, c);
    SkipOne(t, c + 1);
  }

  lemma NoHexAtComma(t: string, i: nat, k: nat)
    requires k < 4 && i + k < |t| && t[i + k] == ','
    ensures ReadHex4(t, i).None?
  {
  }

  lemma NoEscapeOfComma(t: string, i: nat)
    requires i + 1 < |t| && t[i] == '\\' && t[i + 1] == ','
    ensures ReadChar(t, i).Err?
  {
  }

  lemma NoEscapeWithoutHex(t: string, i: nat)
    requires i + 1 < |t| && t[i] == '\\' && t[i + 1] == 'u' && ReadHex4(t, i + 2).None?
    ensures ReadChar(t, i).Err?
  {
    hide ReadHex4;
  }

  /** An escape that is cut off. */
  lemma CutEscape(t: string, i: nat, c: char, m: nat)
    requires 0 < m < |EscapedChar(c)| && Cut(t, i, EscapedChar(c), m) && i + m < |t| && t[i + m] == ','
    ensures ReadChar(t, i).Err? && t[i] != '"'
  {
    var x := EscapedChar(c);
    EscapeStart(c);
    hide EscapedChar, Hex4, ReadHex4, At, ReadEscape;
    CutChar(t, i, x, m, 0);
    if m == 1 {
      NoEscapeOfComma(t, i);
    } else {
      CutChar(t, i, x, m, 1);
      if m < 6 {
        NoHexAtComma(t, i + 2, m - 2);
        NoEscapeWithoutHex(t, i);
      } else {
        CutPair(t, i, c as int - 0x1_0000, m);
      }
    }
  }

  lemma EscapeStart(c: char)
    requires |EscapedChar(c)| > 1
    ensures EscapedChar(c)[0] == '\\' && |EscapedChar(c)| in {2, 6, 12}
    ensures |EscapedChar(c)| > 2 ==> EscapedChar(c)[1] == 'u'
    ensures |EscapedChar(c)| == 12 ==> c as int >= 0x1_0000 && EscapedChar(c) == Pair(c as int - 0x1_0000)
  {
  }

  /** The escape of a character beyond the first plane. */
  function Pair(n: nat): string
    requires n < 0x10_0000
  {
    ("\\u" + Hex4(HIGH_SURROGATE + n / 0x400)) + ("\\u" + Hex4(LOW_SURROGATE + n % 0x400))
  }

  lemma CutPair(t: string, i: nat, n: nat, m: nat)
    requires n < 0x10_0000 && 6 <= m < 12 && i + m < |t| && t[i + m] == ',' && Cut(t, i, Pair(n), m)
    ensures ReadChar(t, i).Err?
  {
    hide Hex4, ReadHex4, At;
    var high, low := HIGH_SURROGATE + n / 0x400, LOW_SURROGATE + n % 0x400;
    CutSplit(t, i, "\\u" + Hex4(high), "\\u" + Hex4(low), m);
    AtSplit(t, i, "\\u", Hex4(high));
    AtIndex(t, i, "\\u", 0);
    AtIndex(t, i, "\\u", 1);
    Hex4RoundTrip(t, i + 2, high);
    if m < 8 {
      if At(t, i + 6, "\\u") {
        AtIndex(t, i + 6, "\\u", m - 6);
      }
    } else {
      NoHexAtComma(t, i + 8, m - 8);
    }
  }

  /** Text that runs into the new line is no string. */
  lemma {:induction false} CutString(t: string, i: nat, s: string, m: nat)
    requires Cut(t, i, Escaped(s), m) && i + m + 1 < |t| && t[i + m] == ',' && t[i + m + 1] == '\n'
    ensures ReadString(t, i).Err?
    decreases |s|
  {
    hide EscapedChar, At;
    if m == 0 {
      CommaThenLine(t, i);
    } else {
      var x := EscapedChar(s[0]);
      CutSplit(t, i, x, Escaped(s[1..]), m);
      if m < |x| {
        CutEscape(t, i, s[0], m);
      } else {
        ReadCharOfEscaped(t, i, s[0]);
        CutString(t, i + |x|, s[1..], m - |x|);
      }
    }
  }

  lemma CommaThenLine(t: string, i: nat)
    requires i + 1 < |t| && t[i] == ',' && t[i + 1] == '\n'
    ensures ReadString(t, i).Err?
  {
    assert ReadString(t, i + 1).Err?;
  }

  lemma CutQuoted(t: string, i: nat, s: string, m: nat)
    requires 0 < m < |Quoted(s)| && Cut(t, i, Quoted(s), m) && Behind(t, i + m)
    ensures t[i] == '"' && ReadString(t, i + 1).Err?
  {
    hide Escaped, ReadItems, ReadString;
    CutChar(t, i, Quoted(s), m, 0);
    assert Quoted(s) == "\"" + (Escaped(s) + "\"");
    CutSplit(t, i, "\"", Escaped(s) + "\"", m);
    CutSplit(t, i + 1, Escaped(s), "\"", m - 1);
    CutString(t, i + 1, s, m - 1);
  }

  lemma CutNat(t: string, i: nat, n: nat, m: nat)
    requires 0 < m && Cut(t, i, NatText(n), m) && i + m < |t| && !IsDigit(t[i + m])
    ensures ReadNat(t, i).Ok? ==> ReadNat(t, i).value.next == i + m
  {
    var x := NatText(n);
    forall k | i <= k < i + m ensures t[k] == x[k - i] {
      CutChar(t, i, x, m, k - i);
    }
    if n > 0 {
      DigitsEndIs(t, i + 1, i + m);
    } else {
      assert x == [DigitChar(0)];
    }
  }

  lemma CutNumber(t: string, i: nat, n: int, m: nat)
    requires 0 < m && Cut(t, i, IntText(n), m) && i + m < |t| && t[i + m] == ','
    ensures ReadNumber(t, i).Ok? ==> ReadNumber(t, i).value.next == i + m
  {
    hide NatText, ReadNat, At;
    CutChar(t, i, IntText(n), m, 0);
    if n < 0 {
      CutSplit(t, i, "-", NatText(-n), m);
      if m == 1 {
        NoNatAtComma(t, i + 1);
      } else {
        CutNat(t, i + 1, -n, m - 1);
      }
    } else {
      CutNat(t, i, n, m);
    }
  }

  lemma NoNatAtComma(t: string, i: nat)
    requires i < |t| && t[i] == ','
    ensures ReadNat(t, i).Err?
  {
  }

  /** A word that is cut off is no value. */
  lemma CutWord(t: string, i: nat, word: string, m: nat)
    requires word in {"null", "true", "false"} && 0 < m < |word| && Cut(t, i, word, m) && i + m < |t| && t[i + m] == ','
    ensures ReadValue(t, i).Err?
  {
    CutChar(t, i, word, m, 0);
    if At(t, i, word) {
      AtIndex(t, i, word, m);
    }
    AtStart(t, i, "null");
    AtStart(t, i, "true");
    AtStart(t, i, "false");
    hide At;
  }

  lemma CutScalar(t: string, i: nat, v: Value, m: nat)
    requires !v.Arr? && !v.Obj? && Printable(v) && 0 < m < |Print(v)| && Cut(t, i, Print(v), m) && Behind(t, i + m)
    ensures ReadValue(t, i).Ok? ==> ReadValue(t, i).value.next == i + m
  {
    hide Behind, ReadItems, ReadFields, ReadString, NatText, Quoted;
    assert i + m < |t| && t[i + m] == ',' by { BehindIsComma(t, i + m); }
    PrintStart(v);
    CutChar(t, i, Print(v), m, 0);
    match v {
      case Null => CutWord(t, i, "null", m);
      case Bool(b) => CutWord(t, i, if b then "true" else "false", m);
      case Num(n) =>
        CutNumber(t, i, n, m);
        AtStart(t, i, "null");
        AtStart(t, i, "true");
        AtStart(t, i, "false");
        NumberStart(n);
      case Str(s) => CutQuoted(t, i, s, m);
    }
  }

  lemma BehindIsComma(t: string, c: nat)
    requires Behind(t, c)
    ensures c < |t| && t[c] == ','
  {
    hide ReadItems;
  }

  lemma NumberStart(n: int)
    ensures IntText(n)[0] !in {'"', '{', '[', 'n', 't', 'f'}
  {
  }

  // ---- Lists and dictionaries ----

  /** Reading a value that is cut off, or complete up to the cut, ends at the cut or at the end of the text; a
      dictionary that is cut off cannot be read. */
  lemma {:induction false} CutValue(t: string, i: nat, v: Value, m: nat)
    requires Printable(v) && 0 < m <= |Print(v)| && Cut(t, i, Print(v), m) && Behind(t, i + m)
    ensures ReadValue(t, i).Ok? ==> ReadValue(t, i).value.next in {i + m, |t|}
    ensures v.Obj? && m < |Print(v)| ==> ReadValue(t, i).Err?
    decreases v, 0
  {
    hide ReadValue, ReadItems, ReadFields, At, Skip, Behind, IsDigit;
    BehindIsComma(t, i + m);
    if m == |Print(v)| {
      CutWhole(t, i, Print(v));
      CommaIsNoDigit();
      ReadOfPrint(t, i, v);
    } else {
      match v {
        case Arr(xs) =>
          CutSplit(t, i, "[", PrintItems(xs) + "]", m);
          AtIndex(t, i, "[", 0);
          if xs.Cons? {
            ItemsBegin(xs);
            CutItems(t, i + 1, xs, m - 1);
          }
          CutOpens(t, i, xs.Cons?, PrintItems(xs) + "]", m);
          CutArr(t, i);
        case Obj(fs) =>
          CutSplit(t, i, "{", PrintFields(fs) + "}", m);
          AtIndex(t, i, "{", 0);
          if fs.Field? {
            FieldsBegin(fs);
            CutFields(t, i + 1, fs, m - 1);
          }
          CutOpens(t, i, fs.Field?, PrintFields(fs) + "}", m);
          CutObj(t, i);
        case _ => CutScalar(t, i, v, m);
      }
    }
  }

  lemma CommaIsNoDigit()
    ensures !IsDigit(',')
  {
  }

  /** What stands behind the opening bracket of something that is cut off. */
  lemma CutOpens(t: string, i: nat, hasMore: bool, x: string, m: nat)
    requires 0 < m && Cut(t, i + 1, x, m - 1) && m - 1 < |x| && i + m < |t| && t[i + m] == ','
    requires hasMore ==> !IsSpace(x[0]) && x[0] !in {']', '}'}
    requires !hasMore ==> |x| == 1
    ensures Skip(t, i + 1) == i + 1 && t[i + 1] !in {']', '}'}
    ensures m == 1 ==> ReadItems(t, i + 1).Err? && ReadFields(t, i + 1).Err?
  {
    hide At, ReadItems, ReadFields, ReadValue;
    if m == 1 {
      CommaBegins(t, i + 1);
    } else {
      CutChar(t, i + 1, x, m - 1, 0);
      SkipNothing(t, i + 1);
    }
  }

  lemma CutArr(t: string, i: nat)
    requires i + 1 < |t| && t[i] == '[' && Skip(t, i + 1) == i + 1 && t[i + 1] != ']'
    ensures ReadItems(t, i + 1).Err? ==> ReadValue(t, i).Err?
    ensures ReadItems(t, i + 1).Ok? ==>
            ReadValue(t, i).Ok? && ReadValue(t, i).value.next == ReadItems(t, i + 1).value.next
  {
    hide ReadItems, ReadFields, Skip;
  }

  lemma CutObj(t: string, i: nat)
    requires i + 1 < |t| && t[i] == '{' && Skip(t, i + 1) == i + 1 && t[i + 1] != '}'
    ensures ReadFields(t, i + 1).Err? ==> ReadValue(t, i).Err?
  {
    hide ReadItems, ReadFields, Skip;
  }

  /** After an item that ends at the cut, or swallows everything. */
  lemma ItemAtCut(t: string, i: nat, c: nat)
    requires i <= |t| && Behind(t, c)
    requires ReadValue(t, i).Ok? ==> ReadValue(t, i).value.next in {c, |t|}
    ensures ReadItems(t, i).Ok? ==> ReadItems(t, i).value.next == |t|
  {
    hide ReadValue;
    SkipsToRecords(t, c);
  }

  /** After an item and a comma. */
  lemma ItemAndComma(t: string, i: nat, n: nat, next: nat)
    requires i <= |t| && ReadValue(t, i).Ok? && ReadValue(t, i).value.next == n
    requires n < |t| && t[n] == ',' && Skip(t, n + 1) == next
    requires ReadItems(t, next).Ok? ==> ReadItems(t, next).value.next == |t|
    ensures ReadItems(t, i).Ok? ==> ReadItems(t, i).value.next == |t|
  {
    hide ReadValue;
    SkipNothing(t, n);
  }

  lemma {:induction false} CutItems(t: string, i: nat, xs: Items, m: nat)
    requires xs.Cons? && AllPrintable(xs) && m < |PrintItems(xs) + "]"| && Cut(t, i, PrintItems(xs) + "]", m)
    requires Behind(t, i + m)
    ensures ReadItems(t, i).Ok? ==> ReadItems(t, i).value.next == |t|
    decreases xs, 1
  {
    hide ReadValue, ReadItems, ReadFields, At, Skip, Behind, Print, IsDigit;
    var p, c := Print(xs.head), i + m;
    BehindIsComma(t, c);
    if m == 0 {
      CommaBegins(t, i);
    } else if xs.tail.Nil? {
      CutSplit(t, i, p, "]", m);
      CutValue(t, i, xs.head, m);
      ItemAtCut(t, i, c);
    } else {
      var rest := PrintItems(xs.tail) + "]";
      assert PrintItems(xs) + "]" == p + (", " + rest);
      CutSplit(t, i, p, ", " + rest, m);
      if m <= |p| {
        CutValue(t, i, xs.head, m);
        ItemAtCut(t, i, c);
      } else {
        var n := i + |p|;
        var k := m - |p|;
        CutChar(t, n, ", " + rest, k, 0);
        CommaIsNoDigit();
        ReadOfPrint(t, i, xs.head);
        ItemsBegin(xs.tail);
        CutBetween(t, n, rest, k);
        if k >= 2 {
          CutSplit(t, n, ", ", rest, k);
          CutItems(t, n + 2, xs.tail, k - 2);
        }
        ItemAndComma(t, i, n, if k == 1 then n + 1 else n + 2);
      }
    }
  }

  /** Where the next item or member would begin behind a comma. */
  lemma CutBetween(t: string, n: nat, rest: string, k: nat)
    requires 0 < k && Cut(t, n, ", " + rest, k) && k < |", " + rest| && Behind(t, n + k)
    requires rest != [] && !IsSpace(rest[0])
    ensures k == 1 ==> Skip(t, n + 1) == n + 1 && ReadItems(t, n + 1).Err? && ReadFields(t, n + 1).Err?
    ensures k >= 2 ==> Skip(t, n + 1) == n + 2
  {
    hide At, ReadItems, ReadFields, ReadValue;
    if k == 1 {
      CommaBegins(t, n + 1);
    } else {
      CutChar(t, n, ", " + rest, k, 1);
      if k > 2 {
        CutChar(t, n, ", " + rest, k, 2);
      }
      SkipOne(t, n + 1);
    }
  }

  /** A member that ends at the cut or swallows everything is no beginning of a dictionary's rest. */
  lemma MemberAtCut(t: string, i: nat, c: nat)
    requires i <= |t| && Behind(t, c)
    requires ReadMember(t, i).Ok? ==> ReadMember(t, i).value.next in {c, |t|}
    ensures ReadFields(t, i).Err?
  {
    hide ReadValue, ReadString, ReadItems;
    SkipsToRecords(t, c);
    RecordIsNoMember(t, c + 2);
  }

  lemma RecordIsNoMember(t: string, i: nat)
    requires i < |t| && t[i] == '{'
    ensures ReadFields(t, i).Err?
  {
    hide ReadValue, ReadString;
  }

  lemma MemberAndComma(t: string, i: nat, n: nat, next: nat)
    requires i <= |t| && ReadMember(t, i).Ok? && ReadMember(t, i).value.next == n
    requires n < |t| && t[n] == ',' && Skip(t, n + 1) == next && ReadFields(t, next).Err?
    ensures ReadFields(t, i).Err?
  {
    hide ReadMember;
    SkipNothing(t, n);
  }

  /** A member that is cut off. */
  lemma {:induction false} CutMember(t: string, i: nat, key: string, v: Value, m: nat)
    requires Printable(v) && 0 < m <= |Member(key, Print(v))| && Cut(t, i, Member(key, Print(v)), m)
    requires Behind(t, i + m)
    ensures ReadMember(t, i).Ok? ==> ReadMember(t, i).value.next in {i + m, |t|}
    decreases v, 1
  {
    hide ReadValue, ReadItems, ReadFields, ReadString, At, Skip, Behind, Print, Escaped;
    var q := Quoted(key);
    BehindIsComma(t, i + m);
    CutSplit(t, i, q, ": " + Print(v), m);
    if m < |q| {
      CutQuoted(t, i, key, m);
    } else {
      AtIndex(t, i, q, 0);
      assert q == "\"" + (Escaped(key) + "\"");
      AtSplit(t, i, "\"", Escaped(key) + "\"");
      ReadStringOfQuoted(t, i + 1, key);
      var n := i + |q|;
      var k := m - |q|;
      if k == 0 {
        CommaBegins(t, n);
      } else {
        CutSplit(t, n, ": ", Print(v), k);
        CutChar(t, n, ": " + Print(v), k, 0);
        SkipNothing(t, n);
        if k == 1 {
          CommaBegins(t, n + 1);
        } else {
          CutChar(t, n, ": " + Print(v), k, 1);
          PrintStart(v);
          if k > 2 {
            CutChar(t, n, ": " + Print(v), k, 2);
            SkipOne(t, n + 1);
            CutValue(t, n + 2, v, k - 2);
          } else {
            SkipOne(t, n + 1);
            CommaBegins(t, n + 2);
          }
        }
      }
    }
  }

  lemma {:induction false} CutFields(t: string, i: nat, fs: Fields, m: nat)
    requires fs.Field? && FieldsPrintable(fs) && m < |PrintFields(fs) + "}"| && Cut(t, i, PrintFields(fs) + "}", m)
    requires Behind(t, i + m)
    ensures ReadFields(t, i).Err?
    decreases fs, 2
  {
    hide ReadMember, ReadItems, ReadFields, At, Skip, Behind, Print, Member, IsDigit;
    var p, c := Member(fs.key, Print(fs.value)), i + m;
    BehindIsComma(t, c);
    if m == 0 {
      CommaBegins(t, i);
    } else if fs.rest.End? {
      CutSplit(t, i, p, "}", m);
      CutMember(t, i, fs.key, fs.value, m);
      MemberAtCut(t, i, c);
    } else {
      var rest := PrintFields(fs.rest) + "}";
      assert PrintFields(fs) + "}" == p + (", " + rest);
      CutSplit(t, i, p, ", " + rest, m);
      if m <= |p| {
        CutMember(t, i, fs.key, fs.value, m);
        MemberAtCut(t, i, c);
      } else {
        var n := i + |p|;
        var k := m - |p|;
        CutChar(t, n, ", " + rest, k, 0);
        CommaIsNoDigit();
        ReadMemberOfPrint(t, i, fs.key, fs.value);
        FieldsBegin(fs.rest);
        CutBetween(t, n, rest, k);
        if k >= 2 {
          CutSplit(t, n, ", ", rest, k);
          CutFields(t, n + 2, fs.rest, k - 2);
        }
        MemberAndComma(t, i, n, if k == 1 then n + 1 else n + 2);
      }
    }
  }

  lemma ItemsBegin(xs: Items)
    requires xs.Cons?
    ensures PrintItems(xs) != [] && !IsSpace(PrintItems(xs)[0]) && PrintItems(xs)[0] !in {']', '}'}
  {
    PrintStart(xs.head);
  }

  lemma FieldsBegin(fs: Fields)
    requires fs.Field?
    ensures PrintFields(fs) != [] && PrintFields(fs)[0] == '"'
  {
  }

  // ---- The stored text ----

  /** Complete records behind a cut. */
  lemma RecordsBehind(t: string, c: nat, h: Value, rest: Items)
    requires AllObjects(Cons(h, rest)) && At(t, c, Appended(Cons(h, rest)) + "]")
    requires c + |Appended(Cons(h, rest)) + "]"| == |t|
    ensures Behind(t, c)
  {
    hide ReadItems, ReadValue, Print;
    assert Appended(Cons(h, rest)) + "]" == SEPARATOR + (Lines(h, rest) + "]");
    AtSplit(t, c, SEPARATOR, Lines(h, rest) + "]");
    AtIndex(t, c, SEPARATOR, 0);
    AtIndex(t, c, SEPARATOR, 1);
    LinesStart(h, rest);
    AtIndex(t, c + 2, Lines(h, rest) + "]", 0);
    ReadLines(t, c + 2, h, rest);
  }

  /** A text with a torn record and complete ones behind it cannot be parsed. */
  lemma TornInsideIsUnparsable(head: Value, tail: Items, v: Value, m: nat, h: Value, rest: Items)
    requires AllObjects(Cons(head, tail)) && AllObjects(Cons(h, rest))
    requires v.Obj? && Printable(v) && 0 < m < |Print(v)|
    ensures Loads(Bracketed(Lines(head, tail) + (SEPARATOR + (Print(v)[..m] + Appended(Cons(h, rest)))))).Err?
  {
    hide ReadItems, ReadValue, Lines, Print, At, Loads, Behind, Appended, Skip, AllObjects, Printable;
    var part, more := Print(v)[..m], Appended(Cons(h, rest));
    var s := Lines(head, tail) + (SEPARATOR + (part + more));
    assert head.Obj? by { HeadIsObject(head, tail); }
    LinesStart(head, tail);
    BracketedAt(s);
    var t := Bracketed(s);
    var before := "[" + (Lines(head, tail) + SEPARATOR);
    assert t == before + (part + (more + "]"));
    AtBehind(before, part + (more + "]"));
    var k := |before|;
    AtSplit(t, k, part, more + "]");
    RecordsBehind(t, k + m, h, rest);
    CutValue(t, k, v, m);
    ItemIsBroken(t, k);
    var behind := "\n" + (part + (more + "]"));
    assert s + "]" == Lines(head, tail) + ("," + behind);
    var e := 1 + |Lines(head, tail)| + 1;
    PrintStart(v);
    assert t[e] == '\n' && t[e + 1] == '{';
    SkipOne(t, e);
    ReadBrokenLines(t, 1, head, tail, behind);
  }

  lemma HeadIsObject(head: Value, tail: Items)
    requires AllObjects(Cons(head, tail))
    ensures head.Obj?
  {
  }

  lemma ItemIsBroken(t: string, i: nat)
    requires i <= |t| && ReadValue(t, i).Err?
    ensures ReadItems(t, i).Err?
  {
    hide ReadValue;
  }

  /** Records appended behind a partial one are lost: whatever complete records follow it, the text loads as the state
      in front of it, as long as that state is not empty. */
  lemma AppendsBehindPartialAreLost(head: Value, tail: Items, v: Value, m: nat, more: Items)
    requires AllObjects(Cons(head, tail)) && BraceFree(head) && ItemsBraceFree(tail)
    requires AllObjects(more) && ItemsBraceFree(more)
    requires v.Obj? && Printable(v) && BraceFree(v) && 0 < m < |Print(v)|
    ensures LoadData(Lines(head, tail) + (SEPARATOR + (Print(v)[..m] + Appended(more)))) ==
            Recovered(Applied(head, tail))
  {
    hide LoadData, Lines, Print, Loads, Applied, BraceFree, ItemsBraceFree, AllObjects, Printable;
    match more {
      case Nil =>
        assert Print(v)[..m] + Appended(Nil) == Print(v)[..m];
        LoadOfTornRecord(head, tail, v, m);
      case Cons(h, rest) =>
        TornInsideIsUnparsable(head, tail, v, m, h, rest);
        UnparsableTailIsLost(head, tail, v, m, more);
    }
  }
}
