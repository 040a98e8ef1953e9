/** The recursive-descent parser as the code has it: a cursor into the text and a
    failure flag that, once cleared, stays cleared. */
module JsonParser {
  import opened Json

  class Parser {
    const lib: Library
    const src: string
    var i: nat
    var ok: bool

    constructor (lib: Library, src: string)
      ensures this.lib == lib && this.src == src && i == 0 && ok
    {
      this.lib, this.src, i, ok := lib, src, 0, true;
    }

    /** The text still to be read. */
    ghost function Left(): string
      requires i <= |src|
      reads this`i
    {
      src[i..]
    }

    method Advance()
      requires i < |src|
      modifies this`i
      ensures i == old(i) + 1 && Left() == old(Left())[1..]
    {
      i := i + 1;
    }

    /** The next character is c. */
    method Sees(c: char) returns (yes: bool)
      requires i <= |src|
      ensures yes <==> Starts(Left(), c)
      ensures yes ==> i < |src|
    {
      yes := i < |src| && src[i] == c;
    }

    method SkipSpace()
      requires i <= |src|
      modifies this`i
      ensures old(i) <= i <= |src| && Left() == Skip(old(Left()))
    {
      while i < |src| && IsSpace(src[i])
        invariant old(i) <= i <= |src| && Skip(Left()) == Skip(old(Left()))
      {
        Advance();
      }
    }

    method ExpectWord(word: string)
      requires i <= |src|
      modifies this
      ensures var o := Expect(old(Left()), word);
              old(i) <= i <= |src| && Left() == o.rest && ok == (old(ok) && o.ok)
    {
      var n := 0;
      while n < |word|
        invariant 0 <= n <= |word| && old(i) <= i <= |src| && ok == old(ok)
        invariant Expect(Left(), word[n..]) == Expect(old(Left()), word)
      {
        if i >= |src| || src[i] != word[n] {
          ok := false;
          return;
        }
        assert Left()[1..] == src[i + 1..] && word[n..][1..] == word[n + 1..];
        i, n := i + 1, n + 1;
      }
    }

    /** Read a string; the cursor is on its opening quote. */
    method ReadText() returns (out: string)
      requires i < |src|
      modifies this
      ensures var o := ReadString(old(Left())[1..], "");
              old(i) < i <= |src| && out == o.value && Left() == o.rest && ok == (old(ok) && o.ok)
    {
      ghost var start := Left()[1..];
      i := i + 1;
      out := "";
      while i < |src| && src[i] != '"'
        invariant old(i) < i <= |src| && ok == old(ok)
        invariant ReadString(Left(), out) == ReadString(start, "")
        decreases |src| - i
      {
        var c := src[i];
        if c == '\\' {
          Advance();
          if i >= |src| {
            ok := false;
            return;
          }
          c := Unescape(src[i]);
        }
        out := out + [c];
        Advance();
      }
      if i >= |src| {
        ok := false;
        return;
      }
      i := i + 1;
    }

    method ReadBoolean() returns (j: Json)
      requires i <= |src|
      modifies this
      ensures var o := ReadBool(old(Left()));
              old(i) <= i <= |src| && j == o.value && Left() == o.rest && ok == (old(ok) && o.ok)
    {
      if i + 4 <= |src| && src[i..i + 4] == "true" {
        assert "true" <= Left();
        i := i + 4;
        return Bool(true);
      }
      assert !("true" <= Left());
      if i + 5 <= |src| && src[i..i + 5] == "false" {
        assert "false" <= Left();
        i := i + 5;
        return Bool(false);
      }
      assert !("false" <= Left());
      ok := false;
      return Bool(false);
    }

    method ReadNumeral() returns (j: Json)
      requires i <= |src|
      modifies this
      ensures var o := ReadNumber(lib, old(Left()));
              old(i) <= i <= |src| && j == o.value && Left() == o.rest && ok == (old(ok) && o.ok)
    {
      ghost var start := Left();
      var st := i;
      if i < |src| && src[i] == '-' { i := i + 1; }
      while i < |src| && IsNumberChar(src[i])
        invariant st <= i <= |src| && ok == old(ok)
        invariant i - st + Span(Left()) == NumberLength(start)
      {
        Advance();
      }
      var n := i - st;
      assert start[..n] == src[st..i] && start[n..] == src[i..];
      if n == 0 {
        ok := false;
        return Num(0.0);
      }
      j := Num(ScanNumber(lib, src[st..i]));
    }

    method Value() returns (j: Json)
      requires i <= |src|
      modifies this
      ensures var o := ReadValue(lib, old(Left()));
              old(i) <= i <= |src| && j == o.value && Left() == o.rest && ok == (old(ok) && o.ok)
      decreases |src| - i, 3
    {
      hide ReadMembers, ReadItems, ReadNumber, ReadBool, ReadString, Expect;
      SkipSpace();
      if i >= |src| {
        ok := false;
        return Null;
      }
      var c := src[i];
      if c == '{' {
        j := Object();
      } else if c == '[' {
        j := Array();
      } else if c == '"' {
        var t := ReadText();
        j := Str(t);
      } else if c == 't' || c == 'f' {
        j := ReadBoolean();
      } else if c == 'n' {
        ExpectWord("null");
        j := Null;
      } else {
        j := ReadNumeral();
      }
    }

    method Array() returns (j: Json)
      requires i < |src| && src[i] == '['
      modifies this
      ensures var u := Skip(old(Left())[1..]);
              var o := if Starts(u, ']') then Out(Arr([]), u[1..], true) else ReadItems(lib, u, [], true);
              old(i) <= i <= |src| && j == o.value && Left() == o.rest && ok == (old(ok) && o.ok)
      decreases |src| - i, 2
    {
      Advance();
      SkipSpace();
      var done := Sees(']');
      if done {
        Advance();
        return Arr([]);
      }
      j := Items();
    }

    method Items() returns (j: Json)
      requires i <= |src|
      modifies this
      ensures var o := ReadItems(lib, old(Left()), [], true);
              old(i) <= i <= |src| && j == o.value && Left() == o.rest && ok == (old(ok) && o.ok)
      decreases |src| - i, 4
    {
      hide ReadValue, Starts, Skip, Left;
      ghost var start := Left();
      ghost var fine := true;
      var items: seq<Json> := [];
      while i < |src|
        invariant old(i) <= i <= |src| && ok == (old(ok) && fine)
        invariant ReadItems(lib, Left(), items, fine) == ReadItems(lib, start, [], true)
        decreases |src| - i
      {
        ghost var here := Left();
        NotEmpty();
        var v := Value();
        fine := fine && ReadValue(lib, here).ok;
        items := items + [v];
        SkipSpace();
        var comma := Sees(',');
        if comma {
          Advance();
        } else {
          var close := Sees(']');
          if close {
            Advance();
          } else {
            ok := false;
          }
          return Arr(items);
        }
      }
      AtEnd();
      ok := false;
      return Arr(items);
    }

    lemma NotEmpty()
      requires i < |src|
      ensures Left() != ""
    {
    }

    lemma AtEnd()
      requires i == |src|
      ensures Left() == ""
    {
    }

    method Object() returns (j: Json)
      requires i < |src| && src[i] == '{'
      modifies this
      ensures var u := Skip(old(Left())[1..]);
              var o := if Starts(u, '}') then Out(Obj([]), u[1..], true) else ReadMembers(lib, u, [], true);
              old(i) <= i <= |src| && j == o.value && Left() == o.rest && ok == (old(ok) && o.ok)
      decreases |src| - i, 2
    {
      Advance();
      SkipSpace();
      var done := Sees('}');
      if done {
        Advance();
        return Obj([]);
      }
      j := Members();
    }

    /** One member; none when its key or colon is missing. */
    method OneMember() returns (m: seq<Member>)
      requires i <= |src|
      modifies this
      ensures var o := ReadMember(lib, old(Left()));
              old(i) <= i <= |src| && m == o.value && Left() == o.rest && ok == (old(ok) && o.ok)
      decreases |src| - i, 4
    {
      hide ReadValue, ReadString, Skip;
      SkipSpace();
      var quote := Sees('"');
      if !quote {
        ok := false;
        return [];
      }
      var k := ReadText();
      SkipSpace();
      var colon := Sees(':');
      if !colon {
        ok := false;
        return [];
      }
      Advance();
      var v := Value();
      m := [Member(k, v)];
    }

    method Members() returns (j: Json)
      requires i <= |src|
      modifies this
      ensures var o := ReadMembers(lib, old(Left()), [], true);
              old(i) <= i <= |src| && j == o.value && Left() == o.rest && ok == (old(ok) && o.ok)
      decreases |src| - i, 5
    {
      hide ReadMember, Starts, Skip, Left, Put;
      ghost var start := Left();
      ghost var fine := true;
      var members: seq<Member> := [];
      while i < |src|
        invariant old(i) <= i <= |src| && ok == (old(ok) && fine)
        invariant ReadMembers(lib, Left(), members, fine) == ReadMembers(lib, start, [], true)
        decreases |src| - i
      {
        ghost var here := Left();
        NotEmpty();
        var m := OneMember();
        if m == [] {
          ok := false;
          return Obj([]);
        }
        fine := fine && ReadMember(lib, here).ok;
        members := Put(members, m[0].key, m[0].value);
        SkipSpace();
        var comma := Sees(',');
        if comma {
          Advance();
        } else {
          var close := Sees('}');
          if close {
            Advance();
            return Obj(members);
          }
          ok := false;
          return Obj([]);
        }
      }
      AtEnd();
      ok := false;
      return Obj([]);
    }
  }

  method ParseText(lib: Library, s: string) returns (j: Json, ok: bool)
    ensures (j, ok) == Parse(lib, s)
  {
    var p := new Parser(lib, s);
    assert p.Left() == s;
    j := p.Value();
    p.SkipSpace();
    ok := p.ok && p.i == |s|;
    assert p.i == |s| <==> p.Left() == "";
  }
}
