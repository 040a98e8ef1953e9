/** A message that was cut short is never accepted: the parser refuses every proper beginning of a text of the
    grammar other than an integer. */
module Truncation {
  import opened Json
  import opened JsonGrammar

  // ----- failures stay -----

  lemma {:induction false} ItemsStayFailed(lib: Library, s: string, acc: seq<Json>)
    ensures !ReadItems(lib, s, acc, false).ok
    decreases |s|
  {
    hide ReadValue;
    if s != "" {
      var v := ReadValue(lib, s);
      var t := Skip(v.rest);
      if Starts(t, ',') { ItemsStayFailed(lib, t[1..], acc + [v.value]); }
    }
  }

  lemma {:induction false} MembersStayFailed(lib: Library, s: string, acc: seq<Member>)
    ensures !ReadMembers(lib, s, acc, false).ok
    decreases |s|
  {
    hide ReadMember, Put;
    if s != "" {
      var m := ReadMember(lib, s);
      if m.value != [] {
        var t := Skip(m.rest);
        if Starts(t, ',') { MembersStayFailed(lib, t[1..], Put(acc, m.value[0].key, m.value[0].value)); }
      }
    }
  }

  /** An item that fails, or after which the text ends, fails the array. */
  lemma FailedItem(lib: Library, s: string, acc: seq<Json>)
    requires s == "" || !ReadValue(lib, s).ok || Skip(ReadValue(lib, s).rest) == ""
    ensures !ReadItems(lib, s, acc, true).ok
  {
    hide ReadValue;
    if s != "" && !ReadValue(lib, s).ok {
      var t := Skip(ReadValue(lib, s).rest);
      if Starts(t, ',') { ItemsStayFailed(lib, t[1..], acc + [ReadValue(lib, s).value]); }
    }
  }

  lemma FailedMember(lib: Library, s: string, acc: seq<Member>)
    requires s == "" || ReadMember(lib, s).value == [] || !ReadMember(lib, s).ok || Skip(ReadMember(lib, s).rest) == ""
    ensures !ReadMembers(lib, s, acc, true).ok
  {
    hide ReadMember, Put;
    if s != "" && ReadMember(lib, s).value != [] && !ReadMember(lib, s).ok {
      var m := ReadMember(lib, s);
      var t := Skip(m.rest);
      if Starts(t, ',') { MembersStayFailed(lib, t[1..], Put(acc, m.value[0].key, m.value[0].value)); }
    }
  }

  // ----- where a cut falls -----

  /** A beginning of two texts one after the other ends in the first or goes on into the second. */
  lemma CutsOne(a: string, b: string, q: string)
    requires q <= a + b
    ensures q <= a || (|q| > |a| && q == a + q[|a|..] && q[|a|..] <= b)
  {
    if |q| <= |a| {
      assert q == a[..|q|];
    } else {
      assert q == a + q[|a|..];
    }
  }

  lemma AfterComma(more: string, tail: string)
    requires tail != "" && tail <= "," + more
    ensures tail[0] == ',' && tail[1..] <= more
  {
    assert tail == "," + tail[1..];
  }

  lemma BlankPart(b: string, q: string)
    requires Blank(b) && q <= b
    ensures Blank(q) && Skip(q) == "" && Stops(q)
  {
    forall i | 0 <= i < |q| ensures IsBlank(q[i]) { assert q[i] == b[i]; }
    SkipBlank(q, "");
    assert q + "" == q;
  }

  lemma NoValue(lib: Library, s: string)
    requires Skip(s) == ""
    ensures ReadValue(lib, s) == Out(Null, "", false)
  {
  }

  // ----- strings, words and integers -----

  lemma {:induction false} CutPieces(ps: seq<Piece>, acc: string, q: string)
    requires PiecesOk(ps) && q <= WrittenPieces(ps)
    ensures var o := ReadString(q, acc); !o.ok && o.rest == ""
    decreases |ps|
  {
    if q != "" {
      var p := ps[0];
      var head, tail := if p.Raw? then [p.c] else ['\\', p.c], WrittenPieces(ps[1..]);
      assert WrittenPieces(ps) == head + tail && PieceOk(p);
      CutsOne(head, tail, q);
      if |q| >= |head| {
        assert q == head + q[|head|..] && q[|head|..] <= tail;
        CutPieces(ps[1..], acc + [Meant(p)], q[|head|..]);
        assert p.Escaped? ==> Unescape(p.c) == Meant(p);
      } else {
        assert q == ['\\'];
      }
    }
  }

  lemma CutWord(lib: Library, word: string, p: string)
    requires word == "null" || word == "true" || word == "false"
    requires p <= word && p != word
    ensures !ReadValue(lib, p).ok
  {
    if p != "" {
      assert p[0] == word[0];
      SkipNothing(p);
      if word == "null" { CutExpect(p, word); }
    } else {
      NoValue(lib, p);
    }
  }

  lemma {:induction false} CutExpect(p: string, word: string)
    requires p <= word && p != word
    ensures !Expect(p, word).ok
    decreases |p|
  {
    if p != "" { CutExpect(p[1..], word[1..]); }
  }

  /** A cut integer uses up the text. */
  lemma CutInteger(lib: Library, n: int, p: string)
    requires p <= Decimal(n)
    ensures ReadValue(lib, p).rest == ""
  {
    if p == "" {
      NoValue(lib, p);
    } else {
      var digits := Digits(if n < 0 then -n else n);
      assert AllDigits(digits);
      assert p[0] == Decimal(n)[0] && (p[0] == '-' || IsDigit(p[0]));
      SkipNothing(p);
      var body := if n < 0 then p[1..] else p;
      forall i | 0 <= i < |body| ensures IsNumberChar(body[i]) { assert body[i] == digits[i]; }
      SpanOf(body, "");
      assert body + "" == body;
      assert NumberLength(p) == |p|;
      hide ReadMembers, ReadItems, ScanNumber;
    }
  }

  // ----- arrays -----

  /** A cut within or right after an item: the item fails, or nothing but white space is left after it. */
  lemma {:induction false} CutItem(lib: Library, it: ItemText, q: string)
    requires Blank(it.before) && TextOk(it.value) && Blank(it.after) && q <= ItemHead(it)
    ensures !ReadValue(lib, q).ok || Skip(ReadValue(lib, q).rest) == ""
    decreases it, 0
  {
    hide ReadValue, Written;
    var w := Written(it.value);
    assert ItemHead(it) == it.before + (w + it.after);
    CutsOne(it.before, w + it.after, q);
    if |q| <= |it.before| {
      BlankPart(it.before, q);
      NoValue(lib, q);
    } else {
      var p := q[|it.before|..];
      ValueSkips(lib, it.before, p);
      CutValue(lib, it.value, it.after, p);
    }
  }

  /** The same without the white space before it. */
  lemma {:induction false} CutValue(lib: Library, t: Text, after: string, p: string)
    requires TextOk(t) && Blank(after) && p <= Written(t) + after
    ensures !ReadValue(lib, p).ok || Skip(ReadValue(lib, p).rest) == ""
    decreases t, 3
  {
    var w := Written(t);
    CutsOne(w, after, p);
    if |p| >= |w| {
      assert p == w + p[|w|..] && p[|w|..] <= after;
      BlankPart(after, p[|w|..]);
      ReadsTree(lib, t, p[|w|..]);
    } else if t.IntegerText? {
      CutInteger(lib, t.n, p);
    } else {
      CutText(lib, t, p);
    }
    hide ReadValue;
  }

  lemma {:induction false} CutItems(lib: Library, items: seq<ItemText>, acc: seq<Json>, q: string)
    requires items != [] && ItemsOk(items) && q <= WrittenItems(items)
    ensures !ReadItems(lib, q, acc, true).ok
    decreases items, 0
  {
    hide ReadValue, ReadItems, ItemHead, WrittenItems, TextOk, Blank, Meaning;
    var it := items[0];
    var more := if |items| == 1 then "" else "," + WrittenItems(items[1..]);
    ItemFirst(items);
    CutsOne(ItemHead(it), more, q);
    if |q| <= |ItemHead(it)| {
      CutItem(lib, it, q);
      FailedItem(lib, q, acc);
    } else {
      var tail := q[|ItemHead(it)|..];
      AfterComma(WrittenItems(items[1..]), tail);
      PassesItem(lib, it, tail, acc);
      CutItems(lib, items[1..], acc + [Meaning(it.value)], tail[1..]);
    }
  }

  lemma PassesItem(lib: Library, it: ItemText, tail: string, acc: seq<Json>)
    requires Blank(it.before) && TextOk(it.value) && Blank(it.after) && Starts(tail, ',')
    ensures ReadItems(lib, ItemHead(it) + tail, acc, true) == ReadItems(lib, tail[1..], acc + [Meaning(it.value)], true)
  {
    hide ReadValue, ReadItems;
    Begins(it.value);
    BlankStops(it.after, tail);
    ReadsTree(lib, it.value, it.after + tail);
    ItemTextStep(lib, it, tail, acc);
  }

  lemma {:induction false} CutArray(lib: Library, b: string, items: seq<ItemText>, p: string)
    requires Blank(b) && ItemsOk(items) && p <= Written(ArrayText(b, items)) && p != Written(ArrayText(b, items))
    ensures !ReadValue(lib, p).ok
    decreases items, 1
  {
    var inner := if items == [] then b else WrittenItems(items);
    assert Written(ArrayText(b, items)) == "[" + inner + "]";
    if p == "" {
      NoValue(lib, p);
    } else {
      var q := p[1..];
      assert p == "[" + q && q <= inner;
      hide ReadItems;
      if Skip(q) == "" {
        EmptyArray(lib, q);
      } else if items == [] {
        BlankPart(b, q);
      } else {
        hide ReadValue;
        OpensItems(lib, q);
        CutItems(lib, items, [], q);
        FirstItem(items, q);
      }
    }
  }

  lemma EmptyArray(lib: Library, q: string)
    requires Skip(q) == ""
    ensures !ReadValue(lib, "[" + q).ok
  {
    var s := "[" + q;
    SkipNothing(s);
    assert s[1..] == q;
  }

  /** An array that is not empty does not begin with the closing bracket. */
  lemma FirstItem(items: seq<ItemText>, q: string)
    requires items != [] && ItemsOk(items) && q <= WrittenItems(items) && Skip(q) != ""
    ensures Skip(q)[0] != ']'
  {
    hide ItemHead, WrittenItems;
    var it := items[0];
    var more := if |items| == 1 then "" else "," + WrittenItems(items[1..]);
    assert WrittenItems(items) == ItemHead(it) + more by { ItemFirst(items); }
    CutsOne(ItemHead(it), more, q);
    if |q| <= |ItemHead(it)| { FirstOfItem(it, q); } else { ItemOpens(it, q[|ItemHead(it)|..]); }
  }

  lemma FirstOfItem(it: ItemText, q: string)
    requires Blank(it.before) && TextOk(it.value) && q <= ItemHead(it) && Skip(q) != ""
    ensures Skip(q)[0] != ']'
  {
    Begins(it.value);
    hide Written;
    assert ItemHead(it) == it.before + (Written(it.value) + it.after);
    CutsOne(it.before, Written(it.value) + it.after, q);
    if |q| <= |it.before| {
      BlankPart(it.before, q);
    } else {
      var p := q[|it.before|..];
      SkipBlank(it.before, p);
      assert p[0] == Written(it.value)[0];
      BlankIsSpace(p[0]);
      SkipNothing(p);
    }
  }

  // ----- objects -----

  /** A cut within or right after a field: no member is read, it fails, or nothing but white space is left after it. */
  lemma {:induction false} CutField(lib: Library, f: FieldText, q: string)
    requires Blank(f.before) && PiecesOk(f.key) && Blank(f.middle) && Blank(f.gap) && TextOk(f.value) && Blank(f.after)
    requires q <= FieldHead(f)
    ensures var m := ReadMember(lib, q); m.value == [] || !m.ok || Skip(m.rest) == ""
    decreases f, 3
  {
    hide ReadValue, Written, WrittenPieces, ReadString, FieldHead;
    var colon := ":" + (f.gap + (Written(f.value) + f.after));
    var quoted := "\"" + (WrittenPieces(f.key) + ("\"" + (f.middle + colon)));
    FieldShape(f);
    CutsOne(f.before, quoted, q);
    if |q| <= |f.before| {
      BlankPart(f.before, q);
    } else {
      var p := q[|f.before|..];
      SkipBlank(f.before, p);
      assert p[0] == '"';
      SkipNothing(p);
      CutQuoted(lib, f, q, p);
    }
  }

  lemma FieldShape(f: FieldText)
    ensures FieldHead(f) ==
            f.before + ("\"" + (WrittenPieces(f.key) +
                ("\"" + (f.middle + (":" + (f.gap + (Written(f.value) + f.after)))))))
  {
    hide Written, WrittenPieces;
  }

  lemma {:induction false} CutQuoted(lib: Library, f: FieldText, q: string, p: string)
    requires PiecesOk(f.key) && Blank(f.middle) && Blank(f.gap) && TextOk(f.value) && Blank(f.after)
    requires Skip(q) == p && Starts(p, '"')
    requires p[1..] <= WrittenPieces(f.key) + ("\"" + (f.middle + (":" + (f.gap + (Written(f.value) + f.after)))))
    ensures var m := ReadMember(lib, q); m.value == [] || !m.ok || Skip(m.rest) == ""
    decreases f, 2
  {
    hide ReadValue, Written, ReadString, WrittenPieces, ReadMember;
    var k, s := WrittenPieces(f.key), p[1..];
    var colon := ":" + (f.gap + (Written(f.value) + f.after));
    MemberParts(lib, q);
    CutsOne(k, "\"" + (f.middle + colon), s);
    if |s| <= |k| {
      CutPieces(f.key, "", s);
    } else {
      var rest := s[|k|..][1..];
      AfterQuote(k, s, f.middle + colon);
      ReadsPieces(f.key, "", rest);
      CutColon(lib, f, rest);
    }
  }

  lemma AfterQuote(k: string, s: string, more: string)
    requires |s| > |k| && s == k + s[|k|..] && s[|k|..] <= "\"" + more
    ensures s == k + "\"" + s[|k|..][1..] && s[|k|..][1..] <= more
  {
    assert s[|k|..] == "\"" + s[|k|..][1..];
  }

  /** A member that begins with a quote: its key, a colon and its value. */
  lemma MemberParts(lib: Library, q: string)
    requires Starts(Skip(q), '"')
    ensures var k := ReadString(Skip(q)[1..], "");
            var u := Skip(k.rest);
            var m := ReadMember(lib, q);
            if !Starts(u, ':') then m.value == []
            else m.rest == ReadValue(lib, u[1..]).rest && m.ok == (k.ok && ReadValue(lib, u[1..]).ok)
  {
    hide ReadValue, ReadString;
  }

  /** A cut after the key: there is no colon, or the value fails, or nothing but white space is left after it. */
  lemma {:induction false} CutColon(lib: Library, f: FieldText, rest: string)
    requires Blank(f.middle) && Blank(f.gap) && TextOk(f.value) && Blank(f.after)
    requires rest <= f.middle + (":" + (f.gap + (Written(f.value) + f.after)))
    ensures var u := Skip(rest);
            !Starts(u, ':') || !ReadValue(lib, u[1..]).ok || Skip(ReadValue(lib, u[1..]).rest) == ""
    decreases f, 1
  {
    hide ReadValue, Written;
    var colon := ":" + (f.gap + (Written(f.value) + f.after));
    CutsOne(f.middle, colon, rest);
    if |rest| <= |f.middle| {
      BlankPart(f.middle, rest);
    } else {
      var u := rest[|f.middle|..];
      SkipBlank(f.middle, u);
      assert u[0] == ':';
      SkipNothing(u);
      CutGap(lib, f, u[1..]);
    }
  }

  lemma {:induction false} CutGap(lib: Library, f: FieldText, u: string)
    requires Blank(f.gap) && TextOk(f.value) && Blank(f.after) && u <= f.gap + (Written(f.value) + f.after)
    ensures !ReadValue(lib, u).ok || Skip(ReadValue(lib, u).rest) == ""
    decreases f, 0
  {
    hide ReadValue, Written;
    CutsOne(f.gap, Written(f.value) + f.after, u);
    if |u| <= |f.gap| {
      BlankPart(f.gap, u);
      NoValue(lib, u);
    } else {
      var p := u[|f.gap|..];
      ValueSkips(lib, f.gap, p);
      CutValue(lib, f.value, f.after, p);
    }
  }

  lemma {:induction false} CutFields(lib: Library, fields: seq<FieldText>, acc: seq<Member>, q: string)
    requires fields != [] && FieldsOk(fields) && q <= WrittenFields(fields)
    ensures !ReadMembers(lib, q, acc, true).ok
    decreases fields, 0
  {
    hide ReadMember, ReadMembers, FieldHead, WrittenFields, Put, TextOk, Blank, PiecesOk, Meaning, MeantString;
    var f := fields[0];
    var more := if |fields| == 1 then "" else "," + WrittenFields(fields[1..]);
    FieldFirst(fields);
    CutsOne(FieldHead(f), more, q);
    if |q| <= |FieldHead(f)| {
      CutField(lib, f, q);
      FailedMember(lib, q, acc);
    } else {
      var tail := q[|FieldHead(f)|..];
      AfterComma(WrittenFields(fields[1..]), tail);
      PassesField(lib, f, tail, acc);
      CutFields(lib, fields[1..], Put(acc, MeantString(f.key), Meaning(f.value)), tail[1..]);
    }
  }

  lemma PassesField(lib: Library, f: FieldText, tail: string, acc: seq<Member>)
    requires Blank(f.before) && PiecesOk(f.key) && Blank(f.middle) && Blank(f.gap) && TextOk(f.value) && Blank(f.after)
    requires Starts(tail, ',')
    ensures ReadMembers(lib, FieldHead(f) + tail, acc, true) ==
            ReadMembers(lib, tail[1..], Put(acc, MeantString(f.key), Meaning(f.value)), true)
  {
    hide ReadValue, ReadMembers, FieldHead, Put;
    BlankStops(f.after, tail);
    ReadsTree(lib, f.value, f.after + tail);
    FieldTextStep(lib, f, tail, acc);
  }

  lemma {:induction false} CutObject(lib: Library, b: string, fields: seq<FieldText>, p: string)
    requires Blank(b) && FieldsOk(fields) && p <= Written(ObjectText(b, fields)) && p != Written(ObjectText(b, fields))
    ensures !ReadValue(lib, p).ok
    decreases fields, 1
  {
    var inner := if fields == [] then b else WrittenFields(fields);
    assert Written(ObjectText(b, fields)) == "{" + inner + "}";
    if p == "" {
      NoValue(lib, p);
    } else {
      var q := p[1..];
      assert p == "{" + q && q <= inner;
      hide ReadMembers;
      if Skip(q) == "" {
        EmptyObject(lib, q);
      } else if fields == [] {
        BlankPart(b, q);
      } else {
        hide ReadValue;
        OpensFields(lib, q);
        CutFields(lib, fields, [], q);
        FirstField(fields, q);
      }
    }
  }

  lemma EmptyObject(lib: Library, q: string)
    requires Skip(q) == ""
    ensures !ReadValue(lib, "{" + q).ok
  {
    var s := "{" + q;
    SkipNothing(s);
    assert s[1..] == q;
  }

  lemma FirstField(fields: seq<FieldText>, q: string)
    requires fields != [] && FieldsOk(fields) && q <= WrittenFields(fields) && Skip(q) != ""
    ensures Skip(q)[0] != '}'
  {
    hide FieldHead, WrittenFields;
    var f := fields[0];
    var more := if |fields| == 1 then "" else "," + WrittenFields(fields[1..]);
    assert WrittenFields(fields) == FieldHead(f) + more by { FieldFirst(fields); }
    CutsOne(FieldHead(f), more, q);
    if |q| <= |FieldHead(f)| { FirstOfField(f, q); } else { FieldOpens(f, q[|FieldHead(f)|..]); }
  }

  lemma FirstOfField(f: FieldText, q: string)
    requires Blank(f.before) && q <= FieldHead(f) && Skip(q) != ""
    ensures Skip(q)[0] == '"'
  {
    hide Written, WrittenPieces, FieldHead;
    var s := "\"" + (WrittenPieces(f.key) + ("\"" + (f.middle + (":" + (f.gap + (Written(f.value) + f.after))))));
    FieldShape(f);
    CutsOne(f.before, s, q);
    if |q| <= |f.before| {
      BlankPart(f.before, q);
    } else {
      var p := q[|f.before|..];
      SkipBlank(f.before, p);
      assert p[0] == '"';
      SkipNothing(p);
    }
  }

  // ----- every cut is noticed -----

  lemma {:induction false} CutText(lib: Library, t: Text, p: string)
    requires TextOk(t) && !t.IntegerText? && p <= Written(t) && p != Written(t)
    ensures !ReadValue(lib, p).ok
    decreases t, 2
  {
    match t
    case NullText => CutWord(lib, "null", p);
    case TrueText => CutWord(lib, "true", p);
    case FalseText => CutWord(lib, "false", p);
    case StringText(ps) => CutString(lib, ps, p);
    case ArrayText(b, items) => CutArray(lib, b, items, p);
    case ObjectText(b, fields) => CutObject(lib, b, fields, p);
  }

  lemma CutString(lib: Library, ps: seq<Piece>, p: string)
    requires PiecesOk(ps) && p <= Written(StringText(ps)) && p != Written(StringText(ps))
    ensures !ReadValue(lib, p).ok
  {
    hide ReadMembers, ReadItems, ReadNumber, ReadString;
    if p == "" {
      NoValue(lib, p);
    } else {
      SkipNothing(p);
      assert p[0] == '"' && p[1..] <= WrittenPieces(ps);
      CutPieces(ps, "", p[1..]);
    }
  }

  /** A text of the grammar that is not an integer is refused when it is cut anywhere, with white space before it or
      not. */
  lemma CutRefused(lib: Library, before: string, t: Text, p: string)
    requires Blank(before) && TextOk(t) && !t.IntegerText? && p <= before + Written(t) && p != before + Written(t)
    ensures !Parse(lib, p).1
  {
    hide ReadValue, Written;
    CutsOne(before, Written(t), p);
    if |p| <= |before| {
      BlankPart(before, p);
      NoValue(lib, p);
    } else {
      ValueSkips(lib, before, p[|before|..]);
      CutText(lib, t, p[|before|..]);
    }
  }

  /** A printed message cut anywhere is refused. */
  lemma CutMessageRefused(lib: Library, ms: seq<Member>, p: string)
    requires Plain(Obj(ms)) && p <= Dump(lib, Obj(ms)) && p != Dump(lib, Obj(ms))
    ensures !Parse(lib, p).1
  {
    hide Parse, Dump, Written, Meaning;
    PrintsText(lib, Obj(ms));
    assert "" + Written(Compact(Obj(ms))) == Dump(lib, Obj(ms));
    CutRefused(lib, "", Compact(Obj(ms)), p);
  }
}
