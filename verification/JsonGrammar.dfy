/** Texts written by the grammar of RFC 8259, apart from escapes by code point and numbers other than integers: the
    parser reads each as what it stands for, and what the printer prints is one of them. */
module JsonGrammar {
  import opened Json

  // ----- texts -----

  /** A character of a string: as it is, or after a backslash. */
  datatype Piece = Raw(c: char) | Escaped(c: char)

  datatype Text =
    | NullText
    | TrueText
    | FalseText
    | IntegerText(n: int)
    | StringText(pieces: seq<Piece>)
    | ArrayText(blank: string, items: seq<ItemText>)
    | ObjectText(blank: string, fields: seq<FieldText>)

  /** A value between white space. */
  datatype ItemText = ItemText(before: string, value: Text, after: string)

  /** A key, a colon and a value, with white space before and after each. */
  datatype FieldText = FieldText(before: string, key: seq<Piece>, middle: string, gap: string, value: Text,
      after: string)

  /** Space, tab, line feed, carriage return. */
  predicate IsBlank(c: char) { c as int == 0x20 || c as int == 0x09 || c as int == 0x0A || c as int == 0x0D }

  predicate Blank(s: string) { forall i :: 0 <= i < |s| ==> IsBlank(s[i]) }

  /** What may follow a backslash. */
  predicate Escapable(c: char) {
    c == '"' || c == '\\' || c == '/' || c == 'b' || c == 'f' || c == 'n' || c == 'r' || c == 't'
  }

  predicate PieceOk(p: Piece) {
    match p
    case Raw(c) => c != '"' && c != '\\'
    case Escaped(c) => Escapable(c)
  }

  predicate PiecesOk(ps: seq<Piece>) { forall i :: 0 <= i < |ps| ==> PieceOk(ps[i]) }

  predicate TextOk(t: Text)
    decreases t, 1
  {
    match t
    case IntegerText(n) => -0x20_0000_0000_0000 <= n <= 0x20_0000_0000_0000
    case StringText(ps) => PiecesOk(ps)
    case ArrayText(b, items) => Blank(b) && ItemsOk(items)
    case ObjectText(b, fields) => Blank(b) && FieldsOk(fields)
    case _ => true
  }

  predicate ItemsOk(items: seq<ItemText>)
    decreases items, 0
  {
    items == [] || (Blank(items[0].before) && TextOk(items[0].value) && Blank(items[0].after) && ItemsOk(items[1..]))
  }

  predicate FieldsOk(fields: seq<FieldText>)
    decreases fields, 0
  {
    fields == [] ||
    (&& Blank(fields[0].before) && PiecesOk(fields[0].key) && Blank(fields[0].middle) && Blank(fields[0].gap)
     && TextOk(fields[0].value) && Blank(fields[0].after) && FieldsOk(fields[1..]))
  }

  // ----- how they are written -----

  function WrittenPieces(ps: seq<Piece>): string {
    if ps == [] then "" else (if ps[0].Raw? then [ps[0].c] else ['\\', ps[0].c]) + WrittenPieces(ps[1..])
  }

  function Written(t: Text): string
    decreases t, 1
  {
    match t
    case NullText => "null"
    case TrueText => "true"
    case FalseText => "false"
    case IntegerText(n) => Decimal(n)
    case StringText(ps) => "\"" + WrittenPieces(ps) + "\""
    case ArrayText(b, items) => "[" + (if items == [] then b else WrittenItems(items)) + "]"
    case ObjectText(b, fields) => "{" + (if fields == [] then b else WrittenFields(fields)) + "}"
  }

  function WrittenItems(items: seq<ItemText>): string
    decreases items, 0
  {
    if items == [] then ""
    else
      ItemHead(items[0]) +
      (if |items| == 1 then "" else "," + WrittenItems(items[1..]))
  }

  function ItemHead(it: ItemText): string
    decreases it, 0
  {
    it.before + Written(it.value) + it.after
  }

  function WrittenFields(fields: seq<FieldText>): string
    decreases fields, 0
  {
    if fields == [] then ""
    else
      FieldHead(fields[0]) +
      (if |fields| == 1 then "" else "," + WrittenFields(fields[1..]))
  }

  function FieldHead(f: FieldText): string
    decreases f, 0
  {
    f.before + "\"" + WrittenPieces(f.key) + "\"" + f.middle + ":" + f.gap + Written(f.value) + f.after
  }

  // ----- what they stand for -----

  /** Backspace, form feed, line feed, carriage return and tab have letters; every other character stands for
      itself. */
  function Meant(p: Piece): char {
    if p.Raw? then p.c
    else if p.c == 'b' then 0x08 as char
    else if p.c == 'f' then 0x0C as char
    else if p.c == 'n' then 0x0A as char
    else if p.c == 'r' then 0x0D as char
    else if p.c == 't' then 0x09 as char
    else p.c
  }

  function MeantString(ps: seq<Piece>): string { seq(|ps|, i requires 0 <= i < |ps| => Meant(ps[i])) }

  function Meaning(t: Text): Json
    decreases t, 1
  {
    match t
    case NullText => Null
    case TrueText => Bool(true)
    case FalseText => Bool(false)
    case IntegerText(n) => Num(n as real)
    case StringText(ps) => Str(MeantString(ps))
    case ArrayText(_, items) => Arr(Meanings(items))
    case ObjectText(_, fields) => Obj(Assigned([], fields))
  }

  function Meanings(items: seq<ItemText>): seq<Json>
    decreases items, 0
  {
    if items == [] then [] else [Meaning(items[0].value)] + Meanings(items[1..])
  }

  /** The members after each field was assigned in turn. */
  function Assigned(ms: seq<Member>, fields: seq<FieldText>): seq<Member>
    decreases fields, 0
  {
    if fields == [] then ms
    else Assigned(Put(ms, MeantString(fields[0].key), Meaning(fields[0].value)), fields[1..])
  }

  // ----- assigning to a key -----

  lemma {:induction false} LessTotal(a: string, b: string)
    ensures Less(a, b) || a == b || Less(b, a)
    decreases |a|
  {
    if a != "" && b != "" && a[0] == b[0] {
      LessTotal(a[1..], b[1..]);
      assert a[1..] == b[1..] ==> a == [a[0]] + a[1..] == b;
    }
  }

  lemma {:induction false} LessTrans(a: string, b: string, c: string)
    requires Less(a, b) && Less(b, c)
    ensures Less(a, c)
    decreases |a|
  {
    if a != "" && a[0] == b[0] == c[0] { LessTrans(a[1..], b[1..], c[1..]); }
  }

  /** Keys stay in order. The key assigned to has the new value and no other; every other key keeps its own. */
  lemma {:induction false} PutExact(ms: seq<Member>, k: string, v: Json, m: Member)
    requires InOrder(ms)
    ensures InOrder(Put(ms, k, v))
    ensures m in Put(ms, k, v) <==> if m.key == k then m.value == v else m in ms
    decreases |ms|
  {
    if ms != [] {
      PutKeys(ms, k, v);
      var rest := ms[1..];
      assert ms == [ms[0]] + rest;
      forall i | 0 <= i < |rest| ensures Less(ms[0].key, rest[i].key) { assert rest[i] == ms[i + 1]; }
      LessTotal(ms[0].key, k);
      if ms[0].key == k {
        forall i | 0 <= i < |rest| ensures rest[i].key != k { LessOrders(k, rest[i].key); }
      } else if Less(k, ms[0].key) {
        LessOrders(k, ms[0].key);
        forall i | 0 <= i < |rest| ensures Less(k, rest[i].key) && rest[i].key != k {
          LessTrans(k, ms[0].key, rest[i].key);
          LessOrders(k, rest[i].key);
        }
      } else {
        PutExact(rest, k, v, m);
        forall i | 0 <= i < |Put(rest, k, v)| ensures Less(ms[0].key, Put(rest, k, v)[i].key) {
          PutKeys(rest, k, v);
        }
      }
    }
  }

  lemma {:induction false} PutKeys(ms: seq<Member>, k: string, v: Json)
    ensures forall i :: 0 <= i < |Put(ms, k, v)| ==>
              Put(ms, k, v)[i].key == k || exists j :: 0 <= j < |ms| && ms[j].key == Put(ms, k, v)[i].key
    decreases |ms|
  {
    if ms != [] && ms[0].key != k && !Less(k, ms[0].key) {
      PutKeys(ms[1..], k, v);
      var p, q := Put(ms, k, v), Put(ms[1..], k, v);
      forall i | 0 <= i < |p| ensures p[i].key == k || exists j :: 0 <= j < |ms| && ms[j].key == p[i].key {
        if i > 0 {
          assert p[i] == q[i - 1];
          if q[i - 1].key != k {
            var j :| 0 <= j < |ms[1..]| && ms[1..][j].key == q[i - 1].key;
            assert ms[j + 1].key == p[i].key;
          }
        }
      }
    }
  }

  /** Where keys differ first, the smaller character comes first; a beginning of a key comes before it. */
  lemma {:induction false} LessExact(a: string, b: string)
    ensures Less(a, b) <==> exists i :: 0 <= i <= |a| && i < |b| && a[..i] == b[..i] && (i < |a| ==> a[i] < b[i])
    decreases |a|
  {
    if a != "" && b != "" && a[0] == b[0] {
      LessExact(a[1..], b[1..]);
      if Less(a[1..], b[1..]) {
        var i :| 0 <= i <= |a[1..]| && i < |b[1..]| && a[1..][..i] == b[1..][..i]
            && (i < |a[1..]| ==> a[1..][i] < b[1..][i]);
        assert a[..i + 1] == [a[0]] + a[1..][..i] && b[..i + 1] == [b[0]] + b[1..][..i];
      }
      if exists i :: 0 <= i <= |a| && i < |b| && a[..i] == b[..i] && (i < |a| ==> a[i] < b[i]) {
        var i :| 0 <= i <= |a| && i < |b| && a[..i] == b[..i] && (i < |a| ==> a[i] < b[i]);
        assert i > 0;
        assert a[1..][..i - 1] == a[..i][1..] && b[1..][..i - 1] == b[..i][1..];
      }
    } else if a == "" && b != "" {
      assert a[..0] == b[..0];
    } else if a != "" && b != "" && a[0] < b[0] {
      assert a[..0] == b[..0];
    }
  }

  // ----- white space -----

  lemma BlankIsSpace(c: char)
    ensures IsBlank(c) <==> IsSpace(c)
  {
  }

  lemma {:induction false} SkipBlank(b: string, s: string)
    requires Blank(b)
    ensures Skip(b + s) == Skip(s)
    decreases |b|
  {
    if b == "" {
      assert b + s == s;
    } else {
      BlankIsSpace(b[0]);
      assert (b + s)[1..] == b[1..] + s;
      SkipBlank(b[1..], s);
    }
  }

  lemma {:induction false} SkipTwice(s: string)
    ensures Skip(Skip(s)) == Skip(s)
    decreases |s|
  {
    if s != "" && IsSpace(s[0]) { SkipTwice(s[1..]); }
  }

  lemma ValueSkips(lib: Library, b: string, s: string)
    requires Blank(b)
    ensures ReadValue(lib, b + s) == ReadValue(lib, s)
  {
    hide ReadMembers, ReadItems, ReadNumber, ReadBool, ReadString, Expect;
    SkipBlank(b, s);
  }

  /** Nothing that continues a number. */
  predicate Stops(rest: string) { rest != "" ==> !IsNumberChar(rest[0]) }

  lemma BlankStops(b: string, tail: string)
    requires Blank(b) && Stops(tail)
    ensures Stops(b + tail)
  {
    if b != "" { assert (b + tail)[0] == b[0]; } else { assert b + tail == tail; }
  }

  // ----- strings and numbers -----

  lemma {:induction false} ReadsPieces(ps: seq<Piece>, acc: string, rest: string)
    requires PiecesOk(ps)
    ensures ReadString(WrittenPieces(ps) + "\"" + rest, acc) == Out(acc + MeantString(ps), rest, true)
    decreases |ps|
  {
    var text := WrittenPieces(ps) + "\"" + rest;
    if ps == [] {
      assert text == "\"" + rest && text[1..] == rest && acc + MeantString(ps) == acc;
    } else {
      var p, tail := ps[0], WrittenPieces(ps[1..]) + "\"" + rest;
      ReadsPieces(ps[1..], acc + [Meant(p)], rest);
      assert acc + [Meant(p)] + MeantString(ps[1..]) == acc + MeantString(ps);
      assert PieceOk(p);
      if p.Raw? {
        assert text == [p.c] + tail && text[1..] == tail;
      } else {
        assert text == ['\\', p.c] + tail && text[2..] == tail && text[1] == p.c;
        assert Unescape(p.c) == Meant(p);
      }
    }
  }

  lemma ReadsInteger(lib: Library, n: int, rest: string)
    requires -0x20_0000_0000_0000 <= n <= 0x20_0000_0000_0000 && Stops(rest)
    ensures ReadNumber(lib, Decimal(n) + rest) == Out(Num(n as real), rest, true)
  {
    var t := Decimal(n);
    IntegerOfDecimal(n);
    var s := t + rest;
    if n < 0 {
      var d := Digits(-n);
      hide Digits, Natural;
      assert t == "-" + d;
      assert s == "-" + (d + rest) && s[1..] == d + rest;
      SpanOf(d, rest);
    } else {
      SpanOf(t, rest);
      assert IsDigit(t[0]);
    }
    assert NumberLength(s) == |t|;
    assert s[..|t|] == t && s[|t|..] == rest;
  }

  lemma Begins(t: Text)
    requires TextOk(t)
    ensures var s := Written(t); s != "" && !IsBlank(s[0]) && s[0] != ']' && s[0] != '}'
    ensures t.IntegerText? ==> var c := Written(t)[0]; c == '-' || IsDigit(c)
  {
    if t.IntegerText? {
      assert AllDigits(Digits(if t.n < 0 then -t.n else t.n));
      assert Written(t) == Decimal(t.n);
      assert t.n >= 0 ==> IsDigit(Decimal(t.n)[0]);
    }
  }

  // ----- every text is read as what it stands for -----

  /** A text of the grammar, followed by something that does not continue it, is read in full and as what it stands
      for. */
  lemma {:induction false} ReadsTree(lib: Library, t: Text, rest: string)
    requires TextOk(t) && Stops(rest)
    ensures ReadValue(lib, Written(t) + rest) == Out(Meaning(t), rest, true)
    decreases t, 2
  {
    match t
    case NullText => ReadsNull(lib, rest);
    case TrueText => ReadsBool(lib, true, rest);
    case FalseText => ReadsBool(lib, false, rest);
    case IntegerText(n) => ReadsIntegerText(lib, n, rest);
    case StringText(ps) => ReadsStringText(lib, ps, rest);
    case ArrayText(b, items) => ReadsArrayText(lib, b, items, rest);
    case ObjectText(b, fields) => ReadsObjectText(lib, b, fields, rest);
  }

  lemma ReadsIntegerText(lib: Library, n: int, rest: string)
    requires TextOk(IntegerText(n)) && Stops(rest)
    ensures ReadValue(lib, Written(IntegerText(n)) + rest) == Out(Num(n as real), rest, true)
  {
    hide ReadNumber, ReadMembers, ReadItems;
    var d := Written(IntegerText(n));
    Begins(IntegerText(n));
    assert (d + rest)[0] == d[0];
    SkipNothing(d + rest);
    ReadsInteger(lib, n, rest);
  }

  lemma ReadsStringText(lib: Library, ps: seq<Piece>, rest: string)
    requires PiecesOk(ps)
    ensures ReadValue(lib, Written(StringText(ps)) + rest) == Out(Str(MeantString(ps)), rest, true)
  {
    var s := Written(StringText(ps)) + rest;
    SkipNothing(s);
    assert s[0] == '"' && s[1..] == WrittenPieces(ps) + "\"" + rest;
    ReadsPieces(ps, "", rest);
    assert "" + MeantString(ps) == MeantString(ps);
  }

  lemma OpensItems(lib: Library, body: string)
    requires Skip(body) != ""
    ensures ReadValue(lib, "[" + body) ==
            if Skip(body)[0] == ']' then Out(Arr([]), Skip(body)[1..], true) else ReadItems(lib, body, [], true)
  {
    hide ReadMembers, ReadNumber, ReadBool, ReadString, Expect;
    var s := "[" + body;
    SkipNothing(s);
    assert s[1..] == body;
    SkipTwice(body);
    assert body != "";
    assert ReadValue(lib, Skip(body)) == ReadValue(lib, body);
  }

  lemma {:induction false} ReadsArrayText(lib: Library, b: string, items: seq<ItemText>, rest: string)
    requires Blank(b) && ItemsOk(items) && Stops(rest)
    ensures ReadValue(lib, Written(ArrayText(b, items)) + rest) == Out(Arr(Meanings(items)), rest, true)
    decreases items, 1
  {
    hide ReadValue, ReadItems, ItemHead;
    var body := (if items == [] then b else WrittenItems(items)) + "]" + rest;
    Regroup("[", if items == [] then b else WrittenItems(items), "]", rest);
    if items == [] {
      assert body == b + ("]" + rest);
      SkipBlank(b, "]" + rest);
      SkipNothing("]" + rest);
      assert ("]" + rest)[1..] == rest;
    } else {
      var more := if |items| == 1 then "" else "," + WrittenItems(items[1..]);
      ItemFirst(items);
      ItemOpens(items[0], more + "]" + rest);
      Regroup(ItemHead(items[0]), more, "]", rest);
      ReadsItemTexts(lib, items, [], rest);
      assert [] + Meanings(items) == Meanings(items);
    }
    OpensItems(lib, body);
  }

  lemma ItemOpens(it: ItemText, tail: string)
    requires Blank(it.before) && TextOk(it.value)
    ensures Skip(ItemHead(it) + tail) != "" && Skip(ItemHead(it) + tail)[0] != ']'
  {
    Begins(it.value);
    hide Written;
    var s := Written(it.value) + (it.after + tail);
    assert ItemHead(it) + tail == it.before + s;
    SkipBlank(it.before, s);
    BlankIsSpace(s[0]);
    SkipNothing(s);
  }

  /** One item and what follows it. */
  lemma ItemTextStep(lib: Library, it: ItemText, tail: string, acc: seq<Json>)
    requires Blank(it.before) && Blank(it.after) && Written(it.value) != ""
    requires ReadValue(lib, Written(it.value) + (it.after + tail)) == Out(Meaning(it.value), it.after + tail, true)
    requires Starts(tail, ',') || Starts(tail, ']')
    ensures ReadItems(lib, it.before + Written(it.value) + it.after + tail, acc, true) ==
            if Starts(tail, ',') then ReadItems(lib, tail[1..], acc + [Meaning(it.value)], true)
            else Out(Arr(acc + [Meaning(it.value)]), tail[1..], true)
  {
    hide ReadValue, Written, Meaning;
    var s := it.before + Written(it.value) + it.after + tail;
    assert s == it.before + (Written(it.value) + (it.after + tail));
    ValueSkips(lib, it.before, Written(it.value) + (it.after + tail));
    SkipBlank(it.after, tail);
    SkipNothing(tail);
  }

  lemma {:induction false} ReadsItemTexts(lib: Library, items: seq<ItemText>, acc: seq<Json>, rest: string)
    requires items != [] && ItemsOk(items) && Stops(rest)
    ensures ReadItems(lib, WrittenItems(items) + "]" + rest, acc, true) == Out(Arr(acc + Meanings(items)), rest, true)
    decreases items, 0
  {
    hide ReadValue, ReadItems;
    var it, more := items[0], WrittenItems(items[1..]) + "]" + rest;
    var tail := if |items| == 1 then "]" + rest else "," + more;
    assert WrittenItems(items) + "]" + rest == it.before + Written(it.value) + it.after + tail;
    Begins(it.value);
    BlankStops(it.after, tail);
    ReadsTree(lib, it.value, it.after + tail);
    ItemTextStep(lib, it, tail, acc);
    assert acc + Meanings(items) == acc + [Meaning(it.value)] + Meanings(items[1..]);
    if |items| > 1 {
      assert tail[1..] == more;
      ReadsItemTexts(lib, items[1..], acc + [Meaning(it.value)], rest);
    } else {
      assert tail[1..] == rest && acc + Meanings(items) == acc + [Meaning(it.value)];
    }
  }

  lemma OpensFields(lib: Library, body: string)
    requires Skip(body) != ""
    ensures ReadValue(lib, "{" + body) ==
            if Skip(body)[0] == '}' then Out(Obj([]), Skip(body)[1..], true) else ReadMembers(lib, body, [], true)
  {
    hide ReadItems, ReadNumber, ReadBool, ReadString, Expect, ReadValue;
    var s := "{" + body;
    OpensFieldsSkipped(lib, body);
    SkipTwice(body);
    assert body != "";
    assert ReadMember(lib, Skip(body)) == ReadMember(lib, body);
  }

  lemma OpensFieldsSkipped(lib: Library, body: string)
    requires Skip(body) != ""
    ensures ReadValue(lib, "{" + body) ==
            if Skip(body)[0] == '}' then Out(Obj([]), Skip(body)[1..], true) else ReadMembers(lib, Skip(body), [], true)
  {
    hide ReadItems, ReadNumber, ReadBool, ReadString, Expect, ReadMembers;
    var s := "{" + body;
    SkipNothing(s);
    assert s[1..] == body;
  }

  lemma {:induction false} ReadsObjectText(lib: Library, b: string, fields: seq<FieldText>, rest: string)
    requires Blank(b) && FieldsOk(fields) && Stops(rest)
    ensures ReadValue(lib, Written(ObjectText(b, fields)) + rest) == Out(Obj(Assigned([], fields)), rest, true)
    decreases fields, 1
  {
    hide ReadValue, ReadMembers, FieldHead, WrittenFields;
    var body := (if fields == [] then b else WrittenFields(fields)) + "}" + rest;
    Regroup("{", if fields == [] then b else WrittenFields(fields), "}", rest);
    if fields == [] {
      assert body == b + ("}" + rest);
      SkipBlank(b, "}" + rest);
      SkipNothing("}" + rest);
      assert ("}" + rest)[1..] == rest;
    } else {
      FieldsText(fields, rest);
      FieldOpens(fields[0], if |fields| == 1 then "}" + rest else "," + (WrittenFields(fields[1..]) + "}" + rest));
      ReadsFieldTexts(lib, fields, [], rest);
    }
    OpensFields(lib, body);
  }

  lemma FieldOpens(f: FieldText, tail: string)
    requires Blank(f.before)
    ensures Skip(FieldHead(f) + tail) != "" && Skip(FieldHead(f) + tail)[0] == '"'
  {
    hide Written, WrittenPieces;
    var s := "\"" + (WrittenPieces(f.key) + "\"" + f.middle + ":" + f.gap + Written(f.value) + f.after + tail);
    assert FieldHead(f) + tail == f.before + s;
    SkipBlank(f.before, s);
    SkipNothing(s);
  }

  lemma FieldsText(fields: seq<FieldText>, rest: string)
    requires fields != []
    ensures WrittenFields(fields) + "}" + rest ==
            FieldHead(fields[0]) + (if |fields| == 1 then "}" + rest
                else "," + (WrittenFields(fields[1..]) + "}" + rest))
  {
    FieldFirst(fields);
    hide FieldHead, WrittenFields;
    var h, more := FieldHead(fields[0]), WrittenFields(fields[1..]);
    if |fields| == 1 {
      Regroup(h, "", "}", rest);
      assert "" + "}" + rest == "}" + rest;
    } else {
      Regroup(h, "," + more, "}", rest);
      Regroup(",", more, "}", rest);
    }
  }

  lemma FieldFirst(fields: seq<FieldText>)
    requires fields != []
    ensures WrittenFields(fields) == FieldHead(fields[0]) + (if |fields| == 1 then ""
        else "," + WrittenFields(fields[1..]))
  {
    hide FieldHead;
  }

  lemma ItemFirst(items: seq<ItemText>)
    requires items != []
    ensures WrittenItems(items) == ItemHead(items[0]) + (if |items| == 1 then "" else "," + WrittenItems(items[1..]))
  {
    hide ItemHead;
  }

  /** One field and what follows it. */
  lemma FieldTextStep(lib: Library, f: FieldText, tail: string, acc: seq<Member>)
    requires Blank(f.before) && PiecesOk(f.key) && Blank(f.middle) && Blank(f.gap) && Blank(f.after)
    requires ReadValue(lib, Written(f.value) + (f.after + tail)) == Out(Meaning(f.value), f.after + tail, true)
    requires Starts(tail, ',') || Starts(tail, '}')
    ensures var all := Put(acc, MeantString(f.key), Meaning(f.value));
            ReadMembers(lib, FieldHead(f) + tail, acc, true) ==
            if Starts(tail, ',') then ReadMembers(lib, tail[1..], all, true) else Out(Obj(all), tail[1..], true)
  {
    hide ReadValue, Written, Meaning, Put, WrittenPieces, MeantString;
    ReadsField(lib, f, tail);
    SkipBlank(f.after, tail);
    SkipNothing(tail);
    hide ReadMember;
    assert FieldHead(f) + tail != "";
  }

  lemma ReadsField(lib: Library, f: FieldText, tail: string)
    requires Blank(f.before) && PiecesOk(f.key) && Blank(f.middle) && Blank(f.gap)
    requires ReadValue(lib, Written(f.value) + (f.after + tail)) == Out(Meaning(f.value), f.after + tail, true)
    ensures ReadMember(lib, FieldHead(f) + tail) ==
            Out([Member(MeantString(f.key), Meaning(f.value))], f.after + tail, true)
  {
    hide ReadValue, Written, Meaning, WrittenPieces, MeantString, ReadString;
    var value := Written(f.value) + (f.after + tail);
    var colon := ":" + (f.gap + value);
    var quoted := "\"" + (WrittenPieces(f.key) + "\"" + (f.middle + colon));
    assert FieldHead(f) + tail == f.before + quoted;
    SkipBlank(f.before, quoted);
    SkipNothing(quoted);
    assert quoted[1..] == WrittenPieces(f.key) + "\"" + (f.middle + colon);
    ReadsPieces(f.key, "", f.middle + colon);
    assert "" + MeantString(f.key) == MeantString(f.key);
    SkipBlank(f.middle, colon);
    SkipNothing(colon);
    assert colon[1..] == f.gap + value;
    ValueSkips(lib, f.gap, value);
  }

  lemma {:induction false} ReadsFieldTexts(lib: Library, fields: seq<FieldText>, acc: seq<Member>, rest: string)
    requires fields != [] && FieldsOk(fields) && Stops(rest)
    ensures ReadMembers(lib, WrittenFields(fields) + "}" + rest, acc, true) == Out(Obj(Assigned(acc, fields)), rest,
        true)
    decreases fields, 0
  {
    hide ReadValue, ReadMembers, Put, FieldHead;
    var f, more := fields[0], WrittenFields(fields[1..]) + "}" + rest;
    var tail := if |fields| == 1 then "}" + rest else "," + more;
    FieldsText(fields, rest);
    BlankStops(f.after, tail);
    ReadsTree(lib, f.value, f.after + tail);
    FieldTextStep(lib, f, tail, acc);
    if |fields| > 1 {
      assert tail[1..] == more;
      ReadsFieldTexts(lib, fields[1..], Put(acc, MeantString(f.key), Meaning(f.value)), rest);
    } else {
      assert tail[1..] == rest;
    }
  }

  /** A text of the grammar is accepted as what it stands for exactly when nothing but white space is around it. */
  lemma ParsesText(lib: Library, before: string, t: Text, after: string)
    requires Blank(before) && TextOk(t) && Stops(after)
    ensures Parse(lib, before + Written(t) + after) == (Meaning(t), Blank(after))
  {
    hide ReadValue, Written, Meaning;
    assert before + Written(t) + after == before + (Written(t) + after);
    ValueSkips(lib, before, Written(t) + after);
    ReadsTree(lib, t, after);
    SkipsAll(after);
  }

  lemma {:induction false} SkipsAll(s: string)
    ensures Skip(s) == "" <==> Blank(s)
    decreases |s|
  {
    if s != "" {
      BlankIsSpace(s[0]);
      SkipsAll(s[1..]);
      assert Blank(s) <==> IsBlank(s[0]) && Blank(s[1..]) by {
        if IsBlank(s[0]) && Blank(s[1..]) {
          forall i | 0 <= i < |s| ensures IsBlank(s[i]) { if i > 0 { assert s[i] == s[1..][i - 1]; } }
        }
      }
    }
  }

  // ----- what the printer prints -----

  /** A string as the printer writes it: quotes and backslashes after a backslash, everything else as it is. */
  function Pieces(s: string): seq<Piece> {
    seq(|s|, i requires 0 <= i < |s| => if s[i] == '"' || s[i] == '\\' then Escaped(s[i]) else Raw(s[i]))
  }

  /** The text of a value without any white space. */
  function Compact(j: Json): Text
    decreases j, 1
  {
    match j
    case Null => NullText
    case Bool(b) => if b then TrueText else FalseText
    case Num(x) => IntegerText(x.Floor)
    case Str(s) => StringText(Pieces(s))
    case Arr(items) => ArrayText("", CompactItems(items))
    case Obj(ms) => ObjectText("", CompactFields(ms))
  }

  function CompactItems(items: seq<Json>): seq<ItemText>
    decreases items, 0
  {
    if items == [] then [] else [ItemText("", Compact(items[0]), "")] + CompactItems(items[1..])
  }

  function CompactFields(ms: seq<Member>): seq<FieldText>
    decreases ms, 0
  {
    if ms == [] then []
    else [FieldText("", Pieces(ms[0].key), "", "", Compact(ms[0].value), "")] + CompactFields(ms[1..])
  }

  lemma {:induction false} EscapeIsPieces(s: string)
    ensures WrittenPieces(Pieces(s)) == Escape(s)
    decreases |s|
  {
    if s != "" {
      EscapeIsPieces(s[1..]);
      assert Pieces(s)[1..] == Pieces(s[1..]);
    }
  }

  lemma PiecesMean(s: string)
    ensures PiecesOk(Pieces(s)) && MeantString(Pieces(s)) == s
  {
  }

  /** A value with plain numbers and keys is printed as its compact text, which stands for it. */
  lemma {:induction false} PrintsText(lib: Library, j: Json)
    requires Plain(j)
    ensures TextOk(Compact(j)) && Meaning(Compact(j)) == j && Written(Compact(j)) == Dump(lib, j)
    decreases j, 1
  {
    match j
    case Null =>
    case Bool(b) =>
    case Num(x) =>
    case Str(s) =>
      EscapeIsPieces(s);
      PiecesMean(s);
    case Arr(items) => PrintsItems(lib, items);
    case Obj(ms) =>
      PrintsFields(lib, ms, []);
      assert [] + ms == ms;
  }

  lemma {:induction false} PrintsItems(lib: Library, items: seq<Json>)
    requires PlainItems(items)
    ensures var ts := CompactItems(items);
            ItemsOk(ts) && Meanings(ts) == items && WrittenItems(ts) == DumpItems(lib, items) && |ts| == |items|
    decreases items, 0
  {
    if items != [] {
      PrintsText(lib, items[0]);
      PrintsItems(lib, items[1..]);
      var ts := CompactItems(items);
      assert ts[1..] == CompactItems(items[1..]);
      assert items == [items[0]] + items[1..];
      assert ItemHead(ts[0]) == Dump(lib, items[0]);
      hide Dump, Written, Compact;
    }
  }

  lemma {:induction false} PrintsFields(lib: Library, ms: seq<Member>, acc: seq<Member>)
    requires PlainMembers(ms) && InOrder(acc + ms)
    ensures var fs := CompactFields(ms);
            FieldsOk(fs) && Assigned(acc, fs) == acc + ms && WrittenFields(fs) == DumpMembers(lib, ms) && |fs| == |ms|
    decreases ms, 0
  {
    if ms == [] {
      assert acc + ms == acc;
    } else {
      var m, fs := ms[0], CompactFields(ms);
      PrintsText(lib, m.value);
      EscapeIsPieces(m.key);
      PlainEscape(m.key);
      PiecesMean(m.key);
      LastKey(acc, ms);
      assert acc + [m] + ms[1..] == acc + ms;
      assert fs[1..] == CompactFields(ms[1..]);
      hide InOrder, Dump, Written, Compact, Put;
      PrintsFields(lib, ms[1..], acc + [m]);
      assert FieldHead(fs[0]) == "\"" + m.key + "\":" + Dump(lib, m.value);
    }
  }
}
