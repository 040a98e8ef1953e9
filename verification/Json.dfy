/** The JSON printer and parser of the message protocol. The parser is modelled
    twice: as functions on the text still to be read, and as an object with a
    cursor and a failure flag that is proved to agree with them. */
module Json {

  // ----- values -----

  /** Objects list their members in key order, as the underlying ordered map does. */
  datatype Json =
    | Null
    | Bool(b: bool)
    | Num(value: real)
    | Str(text: string)
    | Arr(items: seq<Json>)
    | Obj(members: seq<Member>)

  datatype Member = Member(key: string, value: Json)

  predicate Less(a: string, b: string) {
    if b == "" then false
    else if a == "" then true
    else if a[0] != b[0] then a[0] < b[0]
    else Less(a[1..], b[1..])
  }

  /** Assign to a key of an ordered map. */
  function Put(ms: seq<Member>, k: string, v: Json): seq<Member>
    decreases |ms|
  {
    if ms == [] then [Member(k, v)]
    else if ms[0].key == k then [Member(k, v)] + ms[1..]
    else if Less(k, ms[0].key) then [Member(k, v)] + ms
    else [ms[0]] + Put(ms[1..], k, v)
  }

  // ----- numbers -----

  const EXACT: int := 0x20_0000_0000_0000

  /** Conversions of the runtime library for numbers other than integers up to 2^53. */
  datatype Library = Library(format: real -> string, scan: string -> real)

  predicate IsDigit(c: char) { '0' <= c <= '9' }

  function DigitValue(c: char): (d: nat)
    requires IsDigit(c)
    ensures d < 10
  {
    c as int - '0' as int
  }

  function DigitChar(d: nat): (c: char)
    requires d < 10
    ensures IsDigit(c) && DigitValue(c) == d
  {
    ('0' as int + d) as char
  }

  function Digits(n: nat): (s: string)
    ensures AllDigits(s)
  {
    if n < 10 then [DigitChar(n)] else Digits(n / 10) + [DigitChar(n % 10)]
  }

  function Decimal(n: int): string { if n < 0 then "-" + Digits(-n) else Digits(n) }

  /** The number an all-digit text stands for. */
  function Natural(s: string): nat
    requires forall i :: 0 <= i < |s| ==> IsDigit(s[i])
  {
    if s == "" then 0 else 10 * Natural(s[..|s| - 1]) + DigitValue(s[|s| - 1])
  }

  predicate AllDigits(s: string) { s != "" && forall i :: 0 <= i < |s| ==> IsDigit(s[i]) }

  /** A text that is an optional minus sign followed by digits. */
  predicate IsInteger(s: string) {
    AllDigits(s) || (s != "" && s[0] == '-' && AllDigits(s[1..]))
  }

  function Integer(s: string): int
    requires IsInteger(s)
  {
    if AllDigits(s) then Natural(s) else -(Natural(s[1..]) as int)
  }

  predicate IsExact(x: real) { x == x.Floor as real && -EXACT <= x.Floor <= EXACT }

  /** Printing with twenty significant digits shows integers up to 2^53 in full. */
  function FormatNumber(lib: Library, x: real): string {
    if IsExact(x) then Decimal(x.Floor) else lib.format(x)
  }

  /** Scanning is exact on such integers. */
  function ScanNumber(lib: Library, s: string): real {
    if IsInteger(s) && -EXACT <= Integer(s) <= EXACT then Integer(s) as real else lib.scan(s)
  }

  // ----- the printer -----

  predicate Special(c: char) { c == '"' || c == '\\' }

  function Escape(s: string): string
    decreases |s|
  {
    if s == "" then ""
    else (if Special(s[0]) then ['\\', s[0]] else [s[0]]) + Escape(s[1..])
  }

  function Dump(lib: Library, j: Json): string
    decreases j, 1
  {
    match j
    case Null => "null"
    case Bool(b) => if b then "true" else "false"
    case Num(x) => FormatNumber(lib, x)
    case Str(s) => "\"" + Escape(s) + "\""
    case Arr(items) => "[" + DumpItems(lib, items) + "]"
    case Obj(ms) => "{" + DumpMembers(lib, ms) + "}"
  }

  function DumpItems(lib: Library, items: seq<Json>): string
    decreases items, 0
  {
    if items == [] then ""
    else Dump(lib, items[0]) + (if |items| == 1 then "" else "," + DumpItems(lib, items[1..]))
  }

  /** Keys are printed as they are. */
  function DumpMembers(lib: Library, ms: seq<Member>): string
    decreases ms, 0
  {
    if ms == [] then ""
    else "\"" + ms[0].key + "\":" + Dump(lib, ms[0].value) + (if |ms| == 1 then "" else "," + DumpMembers(lib, ms[1..]))
  }

  // ----- the parser as functions -----

  /** What was read, the text left, and whether nothing failed. */
  datatype Out<T> = Out(value: T, rest: string, ok: bool)

  predicate IsSpace(c: char) { c == ' ' || c == '\t' || c == '\n' || c == '\r' }

  function Skip(s: string): (t: string)
    ensures |t| <= |s|
    decreases |s|
  {
    if s != "" && IsSpace(s[0]) then Skip(s[1..]) else s
  }

  predicate Starts(s: string, c: char) { s != "" && s[0] == c }

  /** Match a word character by character; what matched is consumed even on failure. */
  function Expect(s: string, word: string): (o: Out<()>)
    ensures |o.rest| <= |s|
    decreases |word|
  {
    if word == "" then Out((), s, true)
    else if !Starts(s, word[0]) then Out((), s, false)
    else Expect(s[1..], word[1..])
  }

  function Unescape(c: char): char {
    match c
    case 'n' => '\n'
    case 't' => '\t'
    case 'r' => '\r'
    case 'b' => '\U{0008}'
    case 'f' => '\U{000C}'
    case _ => c
  }

  /** The rest of a string, after its opening quote. */
  function ReadString(s: string, acc: string): (o: Out<string>)
    ensures |o.rest| <= |s|
    decreases |s|
  {
    if s == "" then Out(acc, s, false)
    else if s[0] == '"' then Out(acc, s[1..], true)
    else if s[0] != '\\' then ReadString(s[1..], acc + [s[0]])
    else if |s| == 1 then Out(acc, "", false)
    else ReadString(s[2..], acc + [Unescape(s[1])])
  }

  predicate IsNumberChar(c: char) { IsDigit(c) || c == '.' || c == 'e' || c == 'E' || c == '+' }

  function Span(s: string): (n: nat)
    ensures n <= |s|
    decreases |s|
  {
    if s != "" && IsNumberChar(s[0]) then 1 + Span(s[1..]) else 0
  }

  function NumberLength(s: string): (n: nat)
    ensures n <= |s|
  {
    if Starts(s, '-') then 1 + Span(s[1..]) else Span(s)
  }

  function ReadNumber(lib: Library, s: string): (o: Out<Json>)
    ensures |o.rest| <= |s|
  {
    var n := NumberLength(s);
    if n == 0 then Out(Num(0.0), s, false) else Out(Num(ScanNumber(lib, s[..n])), s[n..], true)
  }

  function ReadBool(s: string): (o: Out<Json>)
    ensures |o.rest| <= |s|
  {
    if "true" <= s then Out(Bool(true), s[4..], true)
    else if "false" <= s then Out(Bool(false), s[5..], true)
    else Out(Bool(false), s, false)
  }

  function ReadValue(lib: Library, s: string): (o: Out<Json>)
    ensures |o.rest| <= |s|
    decreases |s|, 0
  {
    var t := Skip(s);
    if t == "" then Out(Null, t, false)
    else if t[0] == '{' then
      var u := Skip(t[1..]);
      if Starts(u, '}') then Out(Obj([]), u[1..], true) else ReadMembers(lib, u, [], true)
    else if t[0] == '[' then
      var u := Skip(t[1..]);
      if Starts(u, ']') then Out(Arr([]), u[1..], true) else ReadItems(lib, u, [], true)
    else if t[0] == '"' then
      var o := ReadString(t[1..], "");
      Out(Str(o.value), o.rest, o.ok)
    else if t[0] == 't' || t[0] == 'f' then ReadBool(t)
    else if t[0] == 'n' then
      var o := Expect(t, "null");
      Out(Null, o.rest, o.ok)
    else ReadNumber(lib, t)
  }

  /** The items of an array that is not empty. A failed item does not stop the loop. */
  function ReadItems(lib: Library, s: string, acc: seq<Json>, ok: bool): (o: Out<Json>)
    ensures |o.rest| <= |s|
    decreases |s|, 1
  {
    if s == "" then Out(Arr(acc), s, false)
    else
      var v := ReadValue(lib, s);
      var t := Skip(v.rest);
      if Starts(t, ',') then ReadItems(lib, t[1..], acc + [v.value], ok && v.ok)
      else if Starts(t, ']') then Out(Arr(acc + [v.value]), t[1..], ok && v.ok)
      else Out(Arr(acc + [v.value]), t, false)
  }

  /** A key, a colon and a value; no member when the key or the colon is missing. */
  function ReadMember(lib: Library, s: string): (o: Out<seq<Member>>)
    ensures |o.rest| <= |s| && |o.value| <= 1
    decreases |s|, 1
  {
    var t := Skip(s);
    if !Starts(t, '"') then Out([], t, false)
    else
      var k := ReadString(t[1..], "");
      var u := Skip(k.rest);
      if !Starts(u, ':') then Out([], u, false)
      else
        var v := ReadValue(lib, u[1..]);
        Out([Member(k.value, v.value)], v.rest, k.ok && v.ok)
  }

  /** The members of an object that is not empty. */
  function ReadMembers(lib: Library, s: string, acc: seq<Member>, ok: bool): (o: Out<Json>)
    ensures |o.rest| <= |s|
    decreases |s|, 2
  {
    if s == "" then Out(Obj([]), s, false)
    else
      var m := ReadMember(lib, s);
      if m.value == [] then Out(Obj([]), m.rest, false)
      else
        var all := Put(acc, m.value[0].key, m.value[0].value);
        var t := Skip(m.rest);
        if Starts(t, ',') then ReadMembers(lib, t[1..], all, ok && m.ok)
        else if Starts(t, '}') then Out(Obj(all), t[1..], ok && m.ok)
        else Out(Obj([]), t, false)
  }

  /** Parse a text that holds one value and nothing else. */
  function Parse(lib: Library, s: string): (Json, bool) {
    var o := ReadValue(lib, s);
    (o.value, o.ok && Skip(o.rest) == "")
  }

  // ----- reading back what was printed -----

  /** Every number is an integer of magnitude at most 2^53, and every object lists its members
      in key order with keys that need no escaping. */
  predicate Plain(j: Json)
    decreases j, 1
  {
    match j
    case Num(x) => IsExact(x)
    case Arr(items) => PlainItems(items)
    case Obj(ms) => PlainMembers(ms) && InOrder(ms)
    case _ => true
  }

  predicate PlainItems(items: seq<Json>)
    decreases items, 0
  {
    items == [] || (Plain(items[0]) && PlainItems(items[1..]))
  }

  predicate PlainKey(k: string) { forall i :: 0 <= i < |k| ==> !Special(k[i]) }

  predicate PlainMembers(ms: seq<Member>)
    decreases ms, 0
  {
    ms == [] || (PlainKey(ms[0].key) && Plain(ms[0].value) && PlainMembers(ms[1..]))
  }

  predicate InOrder(ms: seq<Member>) { forall i, j :: 0 <= i < j < |ms| ==> Less(ms[i].key, ms[j].key) }

  /** What may follow a value: the end, a comma or a closing bracket. */
  predicate Ends(rest: string) { rest == "" || rest[0] == ',' || rest[0] == ']' || rest[0] == '}' }

  lemma {:induction false} NaturalOfDigits(n: nat)
    ensures Natural(Digits(n)) == n
    decreases n
  {
    if n >= 10 {
      NaturalOfDigits(n / 10);
      assert Digits(n)[..|Digits(n)| - 1] == Digits(n / 10);
    } else {
      assert Digits(n)[..0] == "";
    }
  }

  lemma IntegerOfDecimal(n: int)
    ensures IsInteger(Decimal(n)) && Integer(Decimal(n)) == n
  {
    if n < 0 {
      assert Decimal(n)[1..] == Digits(-n);
      assert !IsDigit('-');
      NaturalOfDigits(-n);
    } else {
      NaturalOfDigits(n);
    }
  }

  lemma {:induction false} SpanOf(s: string, rest: string)
    requires (forall i :: 0 <= i < |s| ==> IsNumberChar(s[i])) && (rest == "" || !IsNumberChar(rest[0]))
    ensures Span(s + rest) == |s|
    decreases |s|
  {
    if s == "" {
      assert s + rest == rest;
    } else {
      SpanOf(s[1..], rest);
      assert (s + rest)[1..] == s[1..] + rest;
    }
  }

  lemma ReadsNumber(lib: Library, x: real, rest: string)
    requires IsExact(x) && Ends(rest)
    ensures ReadNumber(lib, FormatNumber(lib, x) + rest) == Out(Num(x), rest, true)
  {
    var t := Decimal(x.Floor);
    IntegerOfDecimal(x.Floor);
    var s := t + rest;
    if x.Floor < 0 {
      assert s[1..] == Digits(-x.Floor) + rest;
      SpanOf(Digits(-x.Floor), rest);
    } else {
      SpanOf(t, rest);
      assert IsDigit(t[0]);
    }
    assert NumberLength(s) == |t|;
    assert s[..|t|] == t && s[|t|..] == rest;
  }

  lemma {:induction false} ReadsString(s: string, acc: string, rest: string)
    ensures ReadString(Escape(s) + "\"" + rest, acc) == Out(acc + s, rest, true)
    decreases |s|
  {
    var text := Escape(s) + "\"" + rest;
    if s == "" {
      assert text == "\"" + rest && text[1..] == rest && acc + s == acc;
    } else {
      ReadsString(s[1..], acc + [s[0]], rest);
      assert acc + [s[0]] + s[1..] == acc + s;
      if Special(s[0]) {
        assert text[2..] == Escape(s[1..]) + "\"" + rest;
        assert text[0] == '\\' && text[1] == s[0] && Unescape(s[0]) == s[0];
      } else {
        assert text[1..] == Escape(s[1..]) + "\"" + rest;
      }
    }
  }

  lemma {:induction false} PlainEscape(k: string)
    requires PlainKey(k)
    ensures Escape(k) == k
    decreases |k|
  {
    if k != "" {
      forall i | 0 <= i < |k[1..]| ensures !Special(k[1..][i]) { assert k[1..][i] == k[i + 1]; }
      PlainEscape(k[1..]);
    }
  }

  lemma {:induction false} LessOrders(a: string, b: string)
    requires Less(a, b)
    ensures a != b && !Less(b, a)
    decreases |a|
  {
    if a != "" && a[0] == b[0] { LessOrders(a[1..], b[1..]); }
  }

  lemma {:induction false} PutLast(ms: seq<Member>, k: string, v: Json)
    requires forall i :: 0 <= i < |ms| ==> Less(ms[i].key, k)
    ensures Put(ms, k, v) == ms + [Member(k, v)]
    decreases |ms|
  {
    if ms != [] {
      LessOrders(ms[0].key, k);
      PutLast(ms[1..], k, v);
      assert ms == [ms[0]] + ms[1..];
    }
  }

  lemma ReadsKey(k: string, tail: string)
    requires PlainKey(k)
    ensures ReadString(k + "\"" + tail, "") == Out(k, tail, true)
  {
    PlainEscape(k);
    ReadsString(k, "", tail);
    assert "" + k == k;
  }

  /** A printed value starts with neither white space nor a closing bracket. */
  lemma Head(lib: Library, j: Json)
    requires Plain(j)
    ensures var d := Dump(lib, j); d != "" && !IsSpace(d[0]) && d[0] != ']' && d[0] != '}'
    ensures j.Num? ==> var c := Dump(lib, j)[0]; c == '-' || IsDigit(c)
  {
    if j.Num? {
      var n := j.value.Floor;
      assert AllDigits(Digits(if n < 0 then -n else n));
      assert Dump(lib, j) == Decimal(n);
      assert n >= 0 ==> IsDigit(Decimal(n)[0]);
    }
  }

  lemma SkipNothing(s: string)
    requires s == "" || !IsSpace(s[0])
    ensures Skip(s) == s
  {
  }

  lemma ReadsNull(lib: Library, rest: string)
    ensures ReadValue(lib, "null" + rest) == Out(Null, rest, true)
  {
    var s := "null" + rest;
    SkipNothing(s);
    assert s[1..] == "ull" + rest && s[1..][1..] == "ll" + rest && s[1..][1..][1..] == "l" + rest;
    assert s[1..][1..][1..][1..] == rest;
    assert "null"[1..] == "ull" && "ull"[1..] == "ll" && "ll"[1..] == "l" && "l"[1..] == "";
    assert Expect(s, "null") == Expect("ull" + rest, "ull");
    assert Expect("ll" + rest, "ll") == Out((), rest, true);
  }

  lemma ReadsBool(lib: Library, b: bool, rest: string)
    ensures ReadValue(lib, Dump(lib, Bool(b)) + rest) == Out(Bool(b), rest, true)
  {
    var d := Dump(lib, Bool(b));
    var s := d + rest;
    SkipNothing(s);
    assert s[|d|..] == rest && d <= s;
    assert !b ==> s[0] == 'f' && !("true" <= s);
  }

  lemma ReadsText(lib: Library, t: string, rest: string)
    ensures ReadValue(lib, Dump(lib, Str(t)) + rest) == Out(Str(t), rest, true)
  {
    var s := Dump(lib, Str(t)) + rest;
    SkipNothing(s);
    assert s[0] == '"' && s[1..] == Escape(t) + "\"" + rest;
    ReadsString(t, "", rest);
    assert "" + t == t;
  }

  lemma ReadsNum(lib: Library, x: real, rest: string)
    requires IsExact(x) && Ends(rest)
    ensures ReadValue(lib, Dump(lib, Num(x)) + rest) == Out(Num(x), rest, true)
  {
    hide ReadNumber, FormatNumber, ReadMembers, ReadItems;
    var d := Dump(lib, Num(x));
    Head(lib, Num(x));
    assert (d + rest)[0] == d[0];
    SkipNothing(d + rest);
    ReadsNumber(lib, x, rest);
  }

  lemma {:induction false} ReadsBack(lib: Library, j: Json, rest: string)
    requires Plain(j) && Ends(rest)
    ensures ReadValue(lib, Dump(lib, j) + rest) == Out(j, rest, true)
    decreases j, 2
  {
    match j
    case Null => ReadsNull(lib, rest);
    case Bool(b) => ReadsBool(lib, b, rest);
    case Num(x) => ReadsNum(lib, x, rest);
    case Str(t) => ReadsText(lib, t, rest);
    case Arr(items) => ReadsArray(lib, items, rest);
    case Obj(ms) => ReadsObject(lib, ms, rest);
  }

  lemma Regroup(a: string, b: string, c: string, d: string)
    ensures a + b + c + d == a + (b + c + d)
  {
  }

  lemma OpensArray(lib: Library, body: string)
    requires body != "" && !IsSpace(body[0])
    ensures ReadValue(lib, "[" + body) == if body[0] == ']' then Out(Arr([]), body[1..], true)
        else ReadItems(lib, body, [], true)
  {
    hide ReadItems;
    var s := "[" + body;
    SkipNothing(s);
    SkipNothing(body);
    assert s[1..] == body;
  }

  lemma {:induction false} ReadsArray(lib: Library, items: seq<Json>, rest: string)
    requires PlainItems(items) && Ends(rest)
    ensures ReadValue(lib, Dump(lib, Arr(items)) + rest) == Out(Arr(items), rest, true)
    decreases items, 1
  {
    hide ReadValue, ReadItems;
    var body := DumpItems(lib, items) + "]" + rest;
    Regroup("[", DumpItems(lib, items), "]", rest);
    if items == [] {
      assert body == "]" + rest && body[1..] == rest;
    } else {
      Head(lib, items[0]);
      assert body[0] == Dump(lib, items[0])[0];
      ReadsItems(lib, items, [], rest);
      assert [] + items == items;
    }
    hide Dump, DumpItems;
    OpensArray(lib, body);
  }

  /** One printed item and what follows it. */
  lemma ItemStep(lib: Library, j: Json, after: string, acc: seq<Json>)
    requires ReadValue(lib, Dump(lib, j) + after) == Out(j, after, true) && Dump(lib, j) != ""
    requires Starts(after, ',') || Starts(after, ']')
    ensures ReadItems(lib, Dump(lib, j) + after, acc, true) ==
            if Starts(after, ',') then ReadItems(lib, after[1..], acc + [j], true)
                else Out(Arr(acc + [j]), after[1..], true)
  {
    hide ReadValue, Dump;
    SkipNothing(after);
  }

  lemma {:induction false} ReadsItems(lib: Library, items: seq<Json>, acc: seq<Json>, rest: string)
    requires items != [] && PlainItems(items) && Ends(rest)
    ensures ReadItems(lib, DumpItems(lib, items) + "]" + rest, acc, true) == Out(Arr(acc + items), rest, true)
    decreases items, 0
  {
    hide ReadValue, ReadItems;
    var s := DumpItems(lib, items) + "]" + rest;
    Head(lib, items[0]);
    var more := DumpItems(lib, items[1..]) + "]" + rest;
    var after := if |items| == 1 then "]" + rest else "," + more;
    assert s == Dump(lib, items[0]) + after;
    ReadsBack(lib, items[0], after);
    ItemStep(lib, items[0], after, acc);
    assert acc + items == acc + [items[0]] + items[1..];
    if |items| > 1 {
      assert after[1..] == more;
      ReadsItems(lib, items[1..], acc + [items[0]], rest);
    } else {
      assert after[1..] == rest && acc + items == acc + [items[0]];
    }
  }

  lemma OpensObject(lib: Library, body: string)
    requires body != "" && !IsSpace(body[0])
    ensures ReadValue(lib, "{" + body) == if body[0] == '}' then Out(Obj([]), body[1..], true)
        else ReadMembers(lib, body, [], true)
  {
    hide ReadMembers;
    var s := "{" + body;
    SkipNothing(s);
    SkipNothing(body);
    assert s[1..] == body;
  }

  lemma {:induction false} ReadsObject(lib: Library, ms: seq<Member>, rest: string)
    requires PlainMembers(ms) && InOrder(ms) && Ends(rest)
    ensures ReadValue(lib, Dump(lib, Obj(ms)) + rest) == Out(Obj(ms), rest, true)
    decreases ms, 1
  {
    hide ReadValue, ReadMembers;
    var body := DumpMembers(lib, ms) + "}" + rest;
    Regroup("{", DumpMembers(lib, ms), "}", rest);
    if ms == [] {
      assert body == "}" + rest && body[1..] == rest;
    } else {
      assert body[0] == '"';
      assert [] + ms == ms;
      ReadsMembers(lib, ms, [], rest);
    }
    hide Dump, DumpMembers;
    OpensObject(lib, body);
  }

  function MemberText(lib: Library, m: Member): string { "\"" + m.key + "\":" + Dump(lib, m.value) }

  /** One printed member and what follows it. */
  lemma MemberStep(lib: Library, m: Member, after: string, acc: seq<Member>)
    requires PlainKey(m.key) && ReadValue(lib, Dump(lib, m.value) + after) == Out(m.value, after, true)
    requires Starts(after, ',') || Starts(after, '}')
    ensures ReadMembers(lib, MemberText(lib, m) + after, acc, true) ==
            if Starts(after, ',') then ReadMembers(lib, after[1..], Put(acc, m.key, m.value), true)
            else Out(Obj(Put(acc, m.key, m.value)), after[1..], true)
  {
    hide ReadValue, Dump, Put;
    var s := MemberText(lib, m) + after;
    var tail := ":" + (Dump(lib, m.value) + after);
    assert s[0] == '"' && s[1..] == m.key + "\"" + tail;
    ReadsKey(m.key, tail);
    SkipNothing(s);
    SkipNothing(tail);
    SkipNothing(after);
    assert tail[1..] == Dump(lib, m.value) + after;
    assert ReadMember(lib, s) == Out([m], after, true);
  }

  lemma MembersText(lib: Library, ms: seq<Member>, rest: string)
    requires ms != []
    ensures DumpMembers(lib, ms) + "}" + rest ==
            MemberText(lib, ms[0]) + (if |ms| == 1 then "}" + rest else "," + (DumpMembers(lib, ms[1..]) + "}" + rest))
  {
    hide Dump;
  }

  /** The last printed member, with the reading of its value given. */
  lemma ReadsLastMember(lib: Library, ms: seq<Member>, acc: seq<Member>, rest: string)
    requires |ms| == 1 && PlainKey(ms[0].key) && InOrder(acc + ms)
    requires ReadValue(lib, Dump(lib, ms[0].value) + ("}" + rest)) == Out(ms[0].value, "}" + rest, true)
    ensures ReadMembers(lib, DumpMembers(lib, ms) + "}" + rest, acc, true) == Out(Obj(acc + ms), rest, true)
  {
    hide ReadValue, ReadMembers, Dump, DumpMembers, InOrder, MemberText, Put;
    MembersText(lib, ms, rest);
    MemberStep(lib, ms[0], "}" + rest, acc);
    LastKey(acc, ms);
    assert ("}" + rest)[1..] == rest && acc + ms == acc + [ms[0]];
  }

  /** A printed member with more to come. */
  lemma ReadsNextMember(lib: Library, ms: seq<Member>, acc: seq<Member>, rest: string)
    requires |ms| > 1 && PlainKey(ms[0].key) && InOrder(acc + ms)
    requires var more := DumpMembers(lib, ms[1..]) + "}" + rest;
             ReadValue(lib, Dump(lib, ms[0].value) + ("," + more)) == Out(ms[0].value, "," + more, true)
    ensures ReadMembers(lib, DumpMembers(lib, ms) + "}" + rest, acc, true) ==
            ReadMembers(lib, DumpMembers(lib, ms[1..]) + "}" + rest, acc + [ms[0]], true)
  {
    hide ReadValue, ReadMembers, Dump, DumpMembers, InOrder, MemberText, Put;
    var more := DumpMembers(lib, ms[1..]) + "}" + rest;
    MembersText(lib, ms, rest);
    MemberStep(lib, ms[0], "," + more, acc);
    LastKey(acc, ms);
    assert ("," + more)[1..] == more;
  }

  lemma {:induction false} ReadsMembers(lib: Library, ms: seq<Member>, acc: seq<Member>, rest: string)
    requires ms != [] && PlainMembers(ms) && InOrder(acc + ms) && Ends(rest)
    ensures ReadMembers(lib, DumpMembers(lib, ms) + "}" + rest, acc, true) == Out(Obj(acc + ms), rest, true)
    decreases ms, 0
  {
    assert PlainKey(ms[0].key) && Plain(ms[0].value) && PlainMembers(ms[1..]);
    hide ReadValue, ReadMembers, Dump, DumpMembers, InOrder, PlainKey, Plain, PlainMembers;
    if |ms| == 1 {
      ReadsBack(lib, ms[0].value, "}" + rest);
      ReadsLastMember(lib, ms, acc, rest);
    } else {
      ReadsBack(lib, ms[0].value, "," + (DumpMembers(lib, ms[1..]) + "}" + rest));
      ReadsNextMember(lib, ms, acc, rest);
      assert acc + [ms[0]] + ms[1..] == acc + ms;
      ReadsMembers(lib, ms[1..], acc + [ms[0]], rest);
    }
  }

  lemma LastKey(acc: seq<Member>, ms: seq<Member>)
    requires ms != [] && InOrder(acc + ms)
    ensures Put(acc, ms[0].key, ms[0].value) == acc + [ms[0]]
  {
    forall i | 0 <= i < |acc| ensures Less(acc[i].key, ms[0].key) {
      assert (acc + ms)[i] == acc[i] && (acc + ms)[|acc|] == ms[0];
    }
    PutLast(acc, ms[0].key, ms[0].value);
    assert Member(ms[0].key, ms[0].value) == ms[0];
  }

  /** Parsing the printed text succeeds, uses all of it and returns the same value. */
  lemma RoundTrip(lib: Library, j: Json)
    requires Plain(j)
    ensures Parse(lib, Dump(lib, j)) == (j, true)
  {
    assert Dump(lib, j) + "" == Dump(lib, j);
    ReadsBack(lib, j, "");
  }

  // ----- keys -----

  lemma {:induction false} ReadExtends(s: string, acc: string)
    ensures acc <= ReadString(s, acc).value
    decreases |s|
  {
    if s != "" && s[0] != '"' {
      if s[0] != '\\' {
        ReadExtends(s[1..], acc + [s[0]]);
      } else if |s| > 1 {
        ReadExtends(s[2..], acc + [Unescape(s[1])]);
      }
    }
  }

  lemma Unequal(v: string, acc: string, c: char, w: string)
    requires acc + [c] <= v && w != "" && w[0] != c
    ensures v != acc + w
  {
    assert v[|acc|] == c && (acc + w)[|acc|] == w[0];
  }

  /** Reading falls behind: with the first n characters of w, all backslashes, already consumed as escapes, the
      rest of w cannot yield w. */
  lemma {:induction false} FallsBehind(w: string, n: nat, tail: string, acc: string)
    requires w != "" && w[0] == '\\' && n <= |w| && forall i :: 0 <= i < n ==> w[i] == '\\'
    ensures ReadString(w[n..] + "\"" + tail, acc).value != acc + w
    decreases |w| - n
  {
    var text := w[n..] + "\"" + tail;
    if n < |w| && w[n] == '\\' {
      assert text[0] == '\\' && |text| > 1;
      ReadExtends(text[2..], acc + [Unescape(text[1])]);
      if text[1] != '\\' {
        Unequal(ReadString(text, acc).value, acc, Unescape(text[1]), w);
      } else {
        assert n + 1 < |w| && w[n + 1] == '\\';
        assert text[2..] == w[1..][n + 1..] + "\"" + tail;
        FallsBehind(w[1..], n + 1, tail, acc + ['\\']);
        assert acc + w == acc + ['\\'] + w[1..];
      }
    } else if n < |w| && w[n] != '"' {
      ReadExtends(text[1..], acc + [w[n]]);
      Unequal(ReadString(text, acc).value, acc, w[n], w);
    } else {
      assert text[0] == '"' && ReadString(text, acc).value == acc;
    }
  }

  lemma {:induction false} KeyLost(k: string, acc: string, tail: string)
    requires !PlainKey(k)
    ensures ReadString(k + "\"" + tail, acc).value != acc + k
    decreases |k|
  {
    var s := k + "\"" + tail;
    if k[0] == '"' {
      assert ReadString(s, acc).value == acc;
    } else if k[0] == '\\' {
      assert k[0..] == k;
      FallsBehind(k, 0, tail, acc);
    } else {
      assert s[1..] == k[1..] + "\"" + tail;
      assert !PlainKey(k[1..]) by {
        var i :| 0 <= i < |k| && Special(k[i]);
        assert k[1..][i - 1] == k[i];
      }
      KeyLost(k[1..], acc + [k[0]], tail);
      assert acc + [k[0]] + k[1..] == acc + k;
    }
  }

  /** Keys are printed without escapes: whatever follows, a printed key is read as itself exactly when it
      contains neither a quote nor a backslash. */
  lemma KeyExact(k: string, tail: string)
    ensures PlainKey(k) ==> ReadString(k + "\"" + tail, "") == Out(k, tail, true)
    ensures ReadString(k + "\"" + tail, "").value == k ==> PlainKey(k)
  {
    assert "" + k == k;
    if PlainKey(k) {
      ReadsKey(k, tail);
    } else {
      KeyLost(k, "", tail);
    }
  }

  ghost predicate HasKey(ms: seq<Member>, k: string) { exists i :: 0 <= i < |ms| && ms[i].key == k }

  lemma {:induction false} PutKeeps(ms: seq<Member>, key: string, v: Json, k: string)
    requires HasKey(ms, k) || k == key
    ensures HasKey(Put(ms, key, v), k)
    decreases |ms|
  {
    var ms1 := Put(ms, key, v);
    if ms == [] || ms[0].key == key || Less(key, ms[0].key) {
      if k == key {
        assert ms1[0].key == k;
      } else {
        var i :| 0 <= i < |ms| && ms[i].key == k;
        assert ms1[if ms[0].key == key then i else i + 1] == ms[i];
      }
    } else if ms[0].key == k {
      assert ms1[0] == ms[0];
    } else {
      assert k == key || HasKey(ms[1..], k) by {
        if k != key {
          var i :| 0 <= i < |ms| && ms[i].key == k;
          assert ms[1..][i - 1] == ms[i];
        }
      }
      PutKeeps(ms[1..], key, v, k);
      var i :| 0 <= i < |Put(ms[1..], key, v)| && Put(ms[1..], key, v)[i].key == k;
      assert ms1[i + 1] == Put(ms[1..], key, v)[i];
    }
  }

  /** A key that was read once is in the object. */
  lemma {:induction false} MembersKeep(lib: Library, s: string, acc: seq<Member>, ok: bool, k: string)
    requires HasKey(acc, k)
    ensures var o := ReadMembers(lib, s, acc, ok); o.value.Obj? && (o.ok ==> HasKey(o.value.members, k))
    decreases |s|
  {
    if s != "" {
      hide ReadValue, HasKey, Put;
      var m := ReadMember(lib, s);
      if m.value != [] {
        PutKeeps(acc, m.value[0].key, m.value[0].value, k);
        var all, t := Put(acc, m.value[0].key, m.value[0].value), Skip(m.rest);
        if Starts(t, ',') { MembersKeep(lib, t[1..], all, ok && m.ok, k); }
      }
    }
  }

  /** The first key that is read is in the object. */
  lemma FirstKeyKept(lib: Library, rest: string)
    ensures var o, k := ReadMembers(lib, "\"" + rest, [], true), ReadString(rest, "").value;
            o.value.Obj? && (o.ok ==> HasKey(o.value.members, k))
  {
    hide ReadValue, HasKey, Put;
    var s := "\"" + rest;
    SkipNothing(s);
    assert s[1..] == rest;
    var k, m := ReadString(rest, "").value, ReadMember(lib, s);
    if m.value != [] {
      assert m.value[0].key == k;
      var all, t := Put([], k, m.value[0].value), Skip(m.rest);
      PutKeeps([], k, m.value[0].value, k);
      if Starts(t, ',') { MembersKeep(lib, t[1..], all, m.ok, k); }
    }
  }

  /** An object with one member, whatever its value, survives printing and parsing exactly when its key
      contains neither a quote nor a backslash. */
  lemma ObjectKeyExact(lib: Library, k: string, v: Json)
    requires Plain(v)
    ensures Parse(lib, Dump(lib, Obj([Member(k, v)]))) == (Obj([Member(k, v)]), true) <==> PlainKey(k)
  {
    var ms := [Member(k, v)];
    if PlainKey(k) {
      assert PlainMembers(ms) by { assert ms[1..] == []; }
      RoundTrip(lib, Obj(ms));
    } else {
      var tail := ":" + Dump(lib, v) + "}";
      var body := "\"" + (k + "\"" + tail);
      assert Dump(lib, Obj(ms)) == "{" + body;
      OpensObject(lib, body);
      KeyExact(k, tail);
      FirstKeyKept(lib, k + "\"" + tail);
    }
  }

  /** A key that is lost: a single quote, or a single backslash. */
  lemma QuoteKeyIsLost(lib: Library)
    ensures Parse(lib, Dump(lib, Obj([Member("\"", Null)]))) != (Obj([Member("\"", Null)]), true)
    ensures Parse(lib, Dump(lib, Obj([Member("\\", Null)]))) != (Obj([Member("\\", Null)]), true)
  {
    assert Special("\""[0]) && Special("\\"[0]);
    ObjectKeyExact(lib, "\"", Null);
    ObjectKeyExact(lib, "\\", Null);
  }

  // ----- numbers that are not integers up to 2^53 -----

  lemma {:induction false} ItemsGiveArray(lib: Library, s: string, acc: seq<Json>, ok: bool)
    ensures ReadItems(lib, s, acc, ok).value.Arr?
    decreases |s|
  {
    if s != "" {
      hide ReadValue;
      var v := ReadValue(lib, s);
      var t := Skip(v.rest);
      if Starts(t, ',') { ItemsGiveArray(lib, t[1..], acc + [v.value], ok && v.ok); }
    }
  }

  lemma {:induction false} MembersGiveObject(lib: Library, s: string, acc: seq<Member>, ok: bool)
    ensures ReadMembers(lib, s, acc, ok).value.Obj?
    decreases |s|
  {
    if s != "" {
      hide ReadMember, Put;
      var m := ReadMember(lib, s);
      if m.value != [] {
        var t := Skip(m.rest);
        if Starts(t, ',') { MembersGiveObject(lib, t[1..], Put(acc, m.value[0].key, m.value[0].value), ok && m.ok); }
      }
    }
  }

  /** Whatever the library prints for a number and however it scans, the number survives exactly when,
      white space aside, the whole of the text is taken for one number and scans to it. */
  lemma NumberExact(lib: Library, x: real)
    ensures var t := Skip(FormatNumber(lib, x));
            var n := NumberLength(t);
            Parse(lib, Dump(lib, Num(x))) == (Num(x), true) <==>
            n > 0 && Skip(t[n..]) == "" && ScanNumber(lib, t[..n]) == x
  {
    hide FormatNumber, ScanNumber, ReadMembers, ReadItems;
    var t := Skip(FormatNumber(lib, x));
    if t != "" {
      var u := Skip(t[1..]);
      MembersGiveObject(lib, u, [], true);
      ItemsGiveArray(lib, u, [], true);
    }
  }

  /** A text with a negative exponent, as the library prints magnitudes below 1e-4: the reader does not accept
      the second sign, so such a number never survives. */
  lemma NegativeExponentIsLost(lib: Library, x: real, mantissa: string, exponent: string)
    requires !IsExact(x) && lib.format(x) == mantissa + "e-" + exponent && mantissa != ""
    requires (IsNumberChar(mantissa[0]) || mantissa[0] == '-') && forall i :: 1 <= i < |mantissa| ==>
        IsNumberChar(mantissa[i])
    ensures Parse(lib, Dump(lib, Num(x))) != (Num(x), true)
  {
    var s, rest := lib.format(x), "-" + exponent;
    SkipNothing(s);
    if mantissa[0] == '-' {
      assert s[1..] == (mantissa[1..] + "e") + rest;
      SpanOf(mantissa[1..] + "e", rest);
    } else {
      assert s == (mantissa + "e") + rest;
      SpanOf(mantissa + "e", rest);
    }
    assert NumberLength(s) == |mantissa| + 1 && s[|mantissa| + 1..] == rest;
    SkipNothing(rest);
    NumberExact(lib, x);
  }
}
