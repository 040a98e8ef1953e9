/** The binary codec of the persisted state. A payload is a fixed sequence of little-endian words, length-prefixed
    strings, optional identifiers and counted lists; a shape says which. */
module Binary {
  import opened Bytes

  const MAX_TEXT: nat := 16 * 1024 * 1024

  datatype Shape =
    | Word(size: nat)
    | Blob
    | Maybe(item: Shape)
    | Fields(fields: seq<Shape>)
    | ListOf(max: nat, item: Shape)

  datatype Val =
    | Num(n: nat)
    | Text(bytes: seq<Byte>)
    | Absent
    | Present(value: Val)
    | Record(vals: seq<Val>)
    | List(vals: seq<Val>)

  // ----- values of a shape -----

  /** v has shape sh and every word and length fits its field. */
  predicate Conforms(sh: Shape, v: Val)
    decreases sh, 1
  {
    match sh
    case Word(k) => v.Num? && v.n < Pow256(k)
    case Blob => v.Text? && |v.bytes| < U64
    case Maybe(item) => v.Absent? || (v.Present? && Conforms(item, v.value))
    case Fields(fs) => v.Record? && AllConform(fs, v.vals)
    case ListOf(max, item) => v.List? && |v.vals| < U64 && forall i :: 0 <= i < |v.vals| ==> Conforms(item, v.vals[i])
  }

  predicate AllConform(fs: seq<Shape>, vs: seq<Val>)
    decreases fs, 0
  {
    |vs| == |fs| && (fs == [] || (Conforms(fs[0], vs[0]) && AllConform(fs[1..], vs[1..])))
  }

  /** Every string and list is within the limit the reader enforces. */
  predicate Limited(sh: Shape, v: Val)
    requires Conforms(sh, v)
    decreases sh, 1
  {
    match sh
    case Word(k) => true
    case Blob => |v.bytes| <= MAX_TEXT
    case Maybe(item) => v.Absent? || Limited(item, v.value)
    case Fields(fs) => AllLimited(fs, v.vals)
    case ListOf(max, item) => |v.vals| <= max && forall i :: 0 <= i < |v.vals| ==> Limited(item, v.vals[i])
  }

  predicate AllLimited(fs: seq<Shape>, vs: seq<Val>)
    requires AllConform(fs, vs)
    decreases fs, 0
  {
    fs == [] || (Limited(fs[0], vs[0]) && AllLimited(fs[1..], vs[1..]))
  }

  // ----- writing -----

  function Encode(sh: Shape, v: Val): seq<Byte>
    requires Conforms(sh, v)
    decreases sh, 1, 0
  {
    match sh
    case Word(k) => Le(v.n, k)
    case Blob => Le(|v.bytes|, 8) + v.bytes
    case Maybe(item) => if v.Absent? then [0] else [1] + Encode(item, v.value)
    case Fields(fs) => EncodeFields(fs, v.vals)
    case ListOf(max, item) => Le(|v.vals|, 8) + EncodeItems(item, v.vals)
  }

  function EncodeFields(fs: seq<Shape>, vs: seq<Val>): seq<Byte>
    requires AllConform(fs, vs)
    decreases fs, 0, 0
  {
    if fs == [] then [] else Encode(fs[0], vs[0]) + EncodeFields(fs[1..], vs[1..])
  }

  function EncodeItems(item: Shape, vs: seq<Val>): seq<Byte>
    requires forall i :: 0 <= i < |vs| ==> Conforms(item, vs[i])
    decreases item, 2, |vs|
  {
    if vs == [] then [] else Encode(item, vs[0]) + EncodeItems(item, vs[1..])
  }

  // ----- reading -----

  /** A value and the bytes after it, or failure. */
  datatype Read<T> = Got(value: T, rest: seq<Byte>) | Failed

  function TakeWord(k: nat, s: seq<Byte>): Read<nat> {
    if k <= |s| then Got(FromLe(s[..k]), s[k..]) else Failed
  }

  function Decode(sh: Shape, s: seq<Byte>): Read<Val>
    decreases sh, 1, 0
  {
    match sh
    case Word(k) =>
      var w := TakeWord(k, s);
      if w.Failed? then Failed else Got(Num(w.value), w.rest)
    case Blob =>
      var w := TakeWord(8, s);
      if w.Failed? || w.value > MAX_TEXT || w.value > |w.rest| then Failed
      else Got(Text(w.rest[..w.value]), w.rest[w.value..])
    case Maybe(item) =>
      var w := TakeWord(1, s);
      if w.Failed? then Failed
      else if w.value == 0 then Got(Absent, w.rest)
      else
        var r := Decode(item, w.rest);
        if r.Failed? then Failed else Got(Present(r.value), r.rest)
    case Fields(fs) =>
      var r := DecodeFields(fs, s);
      if r.Failed? then Failed else Got(Record(r.value), r.rest)
    case ListOf(max, item) =>
      var w := TakeWord(8, s);
      if w.Failed? || w.value > max then Failed
      else
        var r := DecodeItems(item, w.value, w.rest);
        if r.Failed? then Failed else Got(List(r.value), r.rest)
  }

  function DecodeFields(fs: seq<Shape>, s: seq<Byte>): (r: Read<seq<Val>>)
    decreases fs, 0, 0
  {
    if fs == [] then Got([], s)
    else
      var v := Decode(fs[0], s);
      if v.Failed? then Failed
      else
        var r := DecodeFields(fs[1..], v.rest);
        if r.Failed? then Failed else Got([v.value] + r.value, r.rest)
  }

  function DecodeItems(item: Shape, n: nat, s: seq<Byte>): Read<seq<Val>>
    decreases item, 2, n
  {
    if n == 0 then Got([], s)
    else
      var v := Decode(item, s);
      if v.Failed? then Failed
      else
        var r := DecodeItems(item, n - 1, v.rest);
        if r.Failed? then Failed else Got([v.value] + r.value, r.rest)
  }

  // ----- reading back what was written -----

  lemma TakesWord(k: nat, n: nat, rest: seq<Byte>)
    requires n < Pow256(k)
    ensures TakeWord(k, Le(n, k) + rest) == Got(n, rest)
  {
    hide Le, FromLe, Pow256;
    var s := Le(n, k) + rest;
    assert s[..k] == Le(n, k) && s[k..] == rest;
    LeRoundTrip(n, k);
  }

  lemma TakesLength(n: nat, rest: seq<Byte>)
    requires n < U64
    ensures TakeWord(8, Le(n, 8) + rest) == Got(n, rest)
  {
    hide Le, FromLe, Pow256;
    WordSizes();
    TakesWord(8, n, rest);
  }

  lemma TakesFlag(b: Byte, rest: seq<Byte>)
    ensures TakeWord(1, [b] + rest) == Got(b, rest)
  {
    var s := [b] + rest;
    assert s[..1] == [b] && s[1..] == rest;
    assert FromLe([b]) == b + 256 * FromLe([b][1..]);
  }

  /** Any flag but zero announces a value. */
  lemma FlagExact(item: Shape, b: Byte, rest: seq<Byte>)
    ensures Decode(Maybe(item), [b] + rest) ==
            if b == 0 then Got(Absent, rest)
            else if Decode(item, rest).Got? then Got(Present(Decode(item, rest).value), Decode(item, rest).rest)
            else Failed
  {
    hide TakeWord;
    TakesFlag(b, rest);
  }

  /** Reading what was written gives the value back and stops at its end, exactly when every string and list is
      within its limit; otherwise the reader refuses. */
  lemma {:induction false} ReadsBack(sh: Shape, v: Val, rest: seq<Byte>)
    requires Conforms(sh, v)
    ensures Decode(sh, Encode(sh, v) + rest) == if Limited(sh, v) then Got(v, rest) else Failed
    decreases sh, 1, 0
  {
    hide Le, FromLe, TakeWord, Pow256, EncodeFields, DecodeFields, EncodeItems, DecodeItems;
    match sh
    case Word(k) => TakesWord(k, v.n, rest);
    case Blob => ReadsBlob(v, rest);
    case Maybe(item) =>
      if v.Absent? {
        TakesFlag(0, rest);
      } else {
        assert Encode(sh, v) + rest == [1] + (Encode(item, v.value) + rest);
        TakesFlag(1, Encode(item, v.value) + rest);
        ReadsBack(item, v.value, rest);
      }
    case Fields(fs) => ReadsFields(fs, v.vals, rest);
    case ListOf(max, item) => ReadsList(max, item, v.vals, rest);
  }

  lemma ReadsBlob(v: Val, rest: seq<Byte>)
    requires Conforms(Blob, v)
    ensures Decode(Blob, Encode(Blob, v) + rest) == if Limited(Blob, v) then Got(v, rest) else Failed
  {
    hide Le, FromLe, TakeWord;
    assert Encode(Blob, v) + rest == Le(|v.bytes|, 8) + (v.bytes + rest);
    TakesLength(|v.bytes|, v.bytes + rest);
    assert (v.bytes + rest)[..|v.bytes|] == v.bytes && (v.bytes + rest)[|v.bytes|..] == rest;
  }

  lemma {:induction false} ReadsList(max: nat, item: Shape, vs: seq<Val>, rest: seq<Byte>)
    requires Conforms(ListOf(max, item), List(vs))
    ensures Decode(ListOf(max, item), Encode(ListOf(max, item), List(vs)) + rest) ==
            if Limited(ListOf(max, item), List(vs)) then Got(List(vs), rest) else Failed
    decreases item, 3, 0
  {
    hide Le, FromLe, TakeWord, DecodeItems, EncodeItems;
    assert Encode(ListOf(max, item), List(vs)) + rest == Le(|vs|, 8) + (EncodeItems(item, vs) + rest);
    TakesLength(|vs|, EncodeItems(item, vs) + rest);
    ReadsItems(item, vs, rest);
  }

  lemma {:induction false} ReadsFields(fs: seq<Shape>, vs: seq<Val>, rest: seq<Byte>)
    requires AllConform(fs, vs)
    ensures DecodeFields(fs, EncodeFields(fs, vs) + rest) == if AllLimited(fs, vs) then Got(vs, rest) else Failed
    decreases fs, 0, 0
  {
    if fs == [] {
      assert EncodeFields(fs, vs) + rest == rest;
    } else {
      var more := EncodeFields(fs[1..], vs[1..]) + rest;
      assert EncodeFields(fs, vs) + rest == Encode(fs[0], vs[0]) + more;
      ReadsBack(fs[0], vs[0], more);
      ReadsFields(fs[1..], vs[1..], rest);
      assert vs == [vs[0]] + vs[1..];
    }
  }

  lemma {:induction false} ReadsItems(item: Shape, vs: seq<Val>, rest: seq<Byte>)
    requires forall i :: 0 <= i < |vs| ==> Conforms(item, vs[i])
    ensures DecodeItems(item, |vs|, EncodeItems(item, vs) + rest) ==
            if forall i :: 0 <= i < |vs| ==> Limited(item, vs[i]) then Got(vs, rest) else Failed
    decreases item, 2, |vs|
  {
    hide Decode, Encode, Limited;
    if vs == [] {
      assert EncodeItems(item, vs) + rest == rest;
    } else {
      var more := EncodeItems(item, vs[1..]) + rest;
      assert EncodeItems(item, vs) + rest == Encode(item, vs[0]) + more;
      ReadsBack(item, vs[0], more);
      ReadsItems(item, vs[1..], rest);
      assert vs == [vs[0]] + vs[1..];
      LimitedSplits(item, vs);
    }
  }

  lemma LimitedSplits(item: Shape, vs: seq<Val>)
    requires vs != [] && forall i :: 0 <= i < |vs| ==> Conforms(item, vs[i])
    ensures (forall i :: 0 <= i < |vs| ==> Limited(item, vs[i])) <==>
            Limited(item, vs[0]) && forall i :: 0 <= i < |vs[1..]| ==> Limited(item, vs[1..][i])
  {
    hide Limited, Conforms;
    if Limited(item, vs[0]) && forall i :: 0 <= i < |vs[1..]| ==> Limited(item, vs[1..][i]) {
      forall i | 0 <= i < |vs| ensures Limited(item, vs[i]) {
        if i > 0 { assert vs[i] == vs[1..][i - 1]; }
      }
    }
  }

  // ----- truncated input -----

  lemma WordExtends(k: nat, s: seq<Byte>, q: seq<Byte>)
    requires TakeWord(k, s).Got?
    ensures TakeWord(k, s + q) == Got(TakeWord(k, s).value, TakeWord(k, s).rest + q)
  {
    assert (s + q)[..k] == s[..k] && (s + q)[k..] == s[k..] + q;
  }

  /** More input does not change what was read from less. */
  lemma {:induction false} Extends(sh: Shape, s: seq<Byte>, q: seq<Byte>)
    requires Decode(sh, s).Got?
    ensures Decode(sh, s + q) == Got(Decode(sh, s).value, Decode(sh, s).rest + q)
    decreases sh, 1, 0
  {
    match sh
    case Word(k) => WordExtends(k, s, q);
    case Blob =>
      WordExtends(8, s, q);
      var w := TakeWord(8, s);
      assert (w.rest + q)[..w.value] == w.rest[..w.value] && (w.rest + q)[w.value..] == w.rest[w.value..] + q;
    case Maybe(item) =>
      WordExtends(1, s, q);
      if TakeWord(1, s).value != 0 { Extends(item, TakeWord(1, s).rest, q); }
    case Fields(fs) => FieldsExtend(fs, s, q);
    case ListOf(max, item) =>
      WordExtends(8, s, q);
      ItemsExtend(item, TakeWord(8, s).value, TakeWord(8, s).rest, q);
  }

  lemma {:induction false} FieldsExtend(fs: seq<Shape>, s: seq<Byte>, q: seq<Byte>)
    requires DecodeFields(fs, s).Got?
    ensures DecodeFields(fs, s + q) == Got(DecodeFields(fs, s).value, DecodeFields(fs, s).rest + q)
    decreases fs, 0, 0
  {
    if fs != [] {
      Extends(fs[0], s, q);
      FieldsExtend(fs[1..], Decode(fs[0], s).rest, q);
    }
  }

  lemma {:induction false} ItemsExtend(item: Shape, n: nat, s: seq<Byte>, q: seq<Byte>)
    requires DecodeItems(item, n, s).Got?
    ensures DecodeItems(item, n, s + q) == Got(DecodeItems(item, n, s).value, DecodeItems(item, n, s).rest + q)
    decreases item, 2, n
  {
    if n > 0 {
      Extends(item, s, q);
      ItemsExtend(item, n - 1, Decode(item, s).rest, q);
    }
  }

  /** Every strict prefix of what was written is refused. */
  lemma PrefixRefused(sh: Shape, v: Val, n: nat)
    requires Conforms(sh, v) && n < |Encode(sh, v)|
    ensures Decode(sh, Encode(sh, v)[..n]) == Failed
  {
    var s := Encode(sh, v);
    assert s[..n] + s[n..] == s && s + [] == s;
    ReadsBack(sh, v, []);
    if Decode(sh, s[..n]).Got? {
      NotEmpty(Decode(sh, s[..n]).rest, s[n..]);
      Extends(sh, s[..n], s[n..]);
    }
  }

  lemma NotEmpty(a: seq<Byte>, b: seq<Byte>)
    requires b != []
    ensures a + b != []
  {
  }

  // ----- the writer -----

  class BinWriter {
    var buf: seq<Byte>

    constructor ()
      ensures buf == []
    {
      buf := [];
    }

    /** Append the low bytes of a word. */
    method PutWord(v: nat, size: nat)
      modifies this
      ensures buf == old(buf) + Le(v, size)
    {
      var i, left := 0, v;
      while i < size
        invariant 0 <= i <= size && buf + Le(left, size - i) == old(buf) + Le(v, size)
      {
        buf, left, i := buf + [left % 256], left / 256, i + 1;
      }
    }

    method PutText(t: seq<Byte>)
      modifies this
      ensures buf == old(buf) + (Le(|t|, 8) + t)
    {
      hide Le;
      PutWord(|t|, 8);
      buf := buf + t;
    }

    method Write(sh: Shape, v: Val)
      requires Conforms(sh, v)
      modifies this
      ensures buf == old(buf) + Encode(sh, v)
      decreases sh, 1, 0
    {
      hide Le;
      match sh
      case Word(k) => PutWord(v.n, k);
      case Blob => PutText(v.bytes);
      case Maybe(item) =>
        if v.Absent? {
          buf := buf + [0];
        } else {
          buf := buf + [1];
          Write(item, v.value);
        }
      case Fields(fs) => WriteFields(fs, v.vals);
      case ListOf(max, item) =>
        PutWord(|v.vals|, 8);
        WriteItems(item, v.vals);
    }

    method WriteFields(fs: seq<Shape>, vs: seq<Val>)
      requires AllConform(fs, vs)
      modifies this
      ensures buf == old(buf) + EncodeFields(fs, vs)
      decreases fs, 0, 0
    {
      hide Encode, Conforms;
      if fs == [] { return; }
      Write(fs[0], vs[0]);
      WriteFields(fs[1..], vs[1..]);
    }

    method WriteItems(item: Shape, vs: seq<Val>)
      requires forall i :: 0 <= i < |vs| ==> Conforms(item, vs[i])
      modifies this
      ensures buf == old(buf) + EncodeItems(item, vs)
      decreases item, 2, 0
    {
      hide Encode, Conforms;
      var i := 0;
      while i < |vs|
        invariant 0 <= i <= |vs| && buf + EncodeItems(item, vs[i..]) == old(buf) + EncodeItems(item, vs)
      {
        assert vs[i..][0] == vs[i] && vs[i..][1..] == vs[i + 1..];
        Write(item, vs[i]);
        i := i + 1;
      }
    }
  }

  // ----- the reader -----

  /** Once a read fails the flag stays down and everything reads as zero. */
  class BinReader {
    const s: seq<Byte>
    var off: nat
    var ok: bool

    constructor (s: seq<Byte>)
      ensures this.s == s && off == 0 && ok
    {
      this.s, off, ok := s, 0, true;
    }

    ghost function Left(): seq<Byte>
      requires off <= |s|
      reads this`off
    {
      s[off..]
    }

    method Fail()
      modifies this`ok
      ensures !ok
    {
      ok := false;
    }

    method GetWord(size: nat) returns (v: nat)
      requires off <= |s|
      modifies this
      ensures off <= |s| && (!old(ok) ==> !ok)
      ensures old(ok) ==> var w := TakeWord(size, old(Left()));
                if w.Got? then ok && v == w.value && Left() == w.rest else !ok
    {
      v := 0;
      if !ok || off + size > |s| {
        Fail();
        return;
      }
      var i := size;
      while i > 0
        invariant 0 <= i <= size && v == FromLe(s[off + i..off + size])
        invariant off == old(off) && ok
      {
        i := i - 1;
        assert s[off + i..off + size][1..] == s[off + i + 1..off + size];
        v := s[off + i] + 256 * v;
      }
      assert old(Left())[..size] == s[off..off + size];
      off := off + size;
    }

    method GetText() returns (t: seq<Byte>)
      requires off <= |s|
      modifies this
      ensures off <= |s| && (!old(ok) ==> !ok)
      ensures old(ok) ==> var r := Decode(Blob, old(Left()));
                if r.Got? then ok && Text(t) == r.value && Left() == r.rest else !ok
    {
      hide FromLe, TakeWord;
      t := [];
      var n := GetWord(8);
      if !ok || n > MAX_TEXT || off + n > |s| {
        Fail();
        return;
      }
      t := s[off..off + n];
      assert Left()[..n] == t && Left()[n..] == s[off + n..];
      off := off + n;
    }

    method Get(sh: Shape) returns (v: Val)
      requires off <= |s|
      modifies this
      ensures off <= |s| && (!old(ok) ==> !ok)
      ensures old(ok) ==> var r := Decode(sh, old(Left()));
                if r.Got? then ok && v == r.value && Left() == r.rest else !ok
      decreases sh, 1, 0
    {
      hide FromLe, TakeWord, Left;
      match sh
      case Word(k) =>
        var n := GetWord(k);
        v := Num(n);
      case Blob =>
        var t := GetText();
        v := Text(t);
      case Maybe(item) =>
        var flag := GetWord(1);
        if flag == 0 || !ok { return Absent; }
        var x := Get(item);
        v := Present(x);
      case Fields(fs) =>
        var vs := GetFields(fs);
        v := Record(vs);
      case ListOf(max, item) =>
        var n := GetWord(8);
        if !ok || n > max {
          Fail();
          return List([]);
        }
        var vs := GetItems(item, n);
        v := List(vs);
    }

    method GetFields(fs: seq<Shape>) returns (vs: seq<Val>)
      requires off <= |s|
      modifies this
      ensures off <= |s| && (!old(ok) ==> !ok)
      ensures old(ok) ==> var r := DecodeFields(fs, old(Left()));
                if r.Got? then ok && vs == r.value && Left() == r.rest else !ok
      decreases fs, 0, 0
    {
      hide Decode, Left;
      if fs == [] { return []; }
      var v := Get(fs[0]);
      var more := GetFields(fs[1..]);
      vs := [v] + more;
    }

    method GetItems(item: Shape, n: nat) returns (vs: seq<Val>)
      requires off <= |s|
      modifies this
      ensures off <= |s| && (!old(ok) ==> !ok)
      ensures old(ok) ==> var r := DecodeItems(item, n, old(Left()));
                if r.Got? then ok && vs == r.value && Left() == r.rest else !ok
      decreases item, 2, 0
    {
      hide Decode, Left;
      vs := [];
      ghost var start := Left();
      NoItemYet(item, n, start);
      var j := 0;
      while j < n && ok
        invariant 0 <= j <= n && off <= |s| && (!old(ok) ==> !ok)
        invariant old(ok) ==>
            if ok then Continues(item, n, start, j, vs, Left()) else DecodeItems(item, n, start).Failed?
      {
        ghost var here := Left();
        var v := Get(item);
        if old(ok) { ItemStep(item, n, start, j, vs, here); }
        vs := vs + [v];
        j := j + 1;
      }
    }
  }

  /** After j of n items, with `done` read, reading on from `left` gives the whole. */
  ghost predicate Continues(item: Shape, n: nat, start: seq<Byte>, j: nat, done: seq<Val>, left: seq<Byte>)
    requires j <= n
  {
    var r := DecodeItems(item, n - j, left);
    DecodeItems(item, n, start) == if r.Got? then Got(done + r.value, r.rest) else Failed
  }

  lemma NoItemYet(item: Shape, n: nat, start: seq<Byte>)
    ensures Continues(item, n, start, 0, [], start)
  {
    var r := DecodeItems(item, n, start);
    assert r.Got? ==> [] + r.value == r.value;
  }

  lemma ItemStep(item: Shape, n: nat, start: seq<Byte>, j: nat, done: seq<Val>, left: seq<Byte>)
    requires j < n && Continues(item, n, start, j, done, left)
    ensures var v := Decode(item, left);
            if v.Got? then Continues(item, n, start, j + 1, done + [v.value], v.rest)
                else DecodeItems(item, n, start).Failed?
  {
    hide Decode;
    var v := Decode(item, left);
    if v.Got? {
      var r := DecodeItems(item, n - j - 1, v.rest);
      if r.Got? { assert done + ([v.value] + r.value) == done + [v.value] + r.value; }
    }
  }
}
