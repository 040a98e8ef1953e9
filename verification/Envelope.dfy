/** The persistence envelope: magic, version, payload length, payload and a trailing checksum over everything before
    it. File handling is not part of the model; a file is the byte string it holds. */
module Envelopes {
  import opened Bytes

  const MAGIC: nat := 0x4953_4653
  const VERSION: nat := 1
  const HEADER: nat := 16
  const TRAILER: nat := 8

  // ----- checksum -----

  const HASH_START: nat := 1469598103934665603
  const HASH_PRIME: nat := 1099511628211

  /** One step of the hash: exclusive or with the byte, then a 64-bit multiplication. */
  function HashStep(h: nat, b: Byte): (r: nat)
    ensures r < U64
  {
    (Xor(h, b) * HASH_PRIME) % U64
  }

  function Hash(h: nat, s: seq<Byte>): nat
    decreases |s|
  {
    if s == [] then h else Hash(HashStep(h, s[0]), s[1..])
  }

  function Checksum(s: seq<Byte>): nat { Hash(HASH_START, s) }

  lemma {:induction false} HashInRange(h: nat, s: seq<Byte>)
    requires h < U64
    ensures Hash(h, s) < U64
    decreases |s|
  {
    if s != [] { HashInRange(HashStep(h, s[0]), s[1..]); }
  }

  const PRIME_INVERSE: nat := 14886173955864302971
  const PRIME_WRAPS: nat := 887285111055

  /** Multiplication by the odd prime is injective on 64-bit words: it has an inverse. */
  lemma TimesPrimeInjective(x: nat, y: nat)
    requires x < U64 && y < U64 && (x * HASH_PRIME) % U64 == (y * HASH_PRIME) % U64
    ensures x == y
  {
    assert HASH_PRIME * PRIME_INVERSE == 1 + U64 * PRIME_WRAPS;
    var i, j := (x * HASH_PRIME) / U64, (y * HASH_PRIME) / U64;
    assert x * HASH_PRIME - y * HASH_PRIME == U64 * (i - j);
    assert (x - y) * (1 + U64 * PRIME_WRAPS) == U64 * ((i - j) * PRIME_INVERSE);
    var d := (i - j) * PRIME_INVERSE - (x - y) * PRIME_WRAPS;
    assert x - y == U64 * d;
  }

  lemma WordXor(a: nat, b: nat)
    requires a < U64 && b < U64
    ensures Xor(a, b) < U64
  {
    PowersOfTwo();
    XorInRange(a, b, 64);
  }

  lemma Sixteen()
    ensures Pow2(4) == 16
  {
    assert Pow2(2) == 4;
  }

  lemma PowersOfTwo()
    ensures Pow2(64) == U64
  {
    hide Pow2;
    Sixteen();
    PowerSum(4, 4);
    PowerSum(8, 8);
    PowerSum(16, 16);
    PowerSum(32, 32);
  }

  lemma {:induction false} PowerSum(a: nat, b: nat)
    ensures Pow2(a + b) == Pow2(a) * Pow2(b)
    decreases b
  {
    if b > 0 {
      PowerSum(a, b - 1);
      assert Pow2(a + b) == 2 * Pow2(a + (b - 1));
      assert Pow2(a) * Pow2(b) == 2 * (Pow2(a) * Pow2(b - 1));
    }
  }

  /** A step is injective in the state for a fixed byte and in the byte for a fixed state. */
  lemma StepInjective(h: nat, k: nat, b: Byte, c: Byte)
    requires h < U64 && k < U64 && HashStep(h, b) == HashStep(k, c)
    ensures b == c ==> h == k
    ensures h == k ==> b == c
  {
    WordXor(h, b);
    WordXor(k, c);
    TimesPrimeInjective(Xor(h, b), Xor(k, c));
    if b == c {
      XorCommutes(h, b);
      XorCommutes(k, c);
      XorInjective(b, h, k);
    }
    if h == k { XorInjective(h, b, c); }
  }

  lemma {:induction false} HashSeparates(h: nat, k: nat, s: seq<Byte>)
    requires h < U64 && k < U64 && h != k
    ensures Hash(h, s) != Hash(k, s)
    decreases |s|
  {
    if s != [] {
      if HashStep(h, s[0]) == HashStep(k, s[0]) { StepInjective(h, k, s[0], s[0]); }
      HashSeparates(HashStep(h, s[0]), HashStep(k, s[0]), s[1..]);
    }
  }

  /** Changing one byte always changes the checksum. */
  lemma {:induction false} HashDetects(h: nat, s: seq<Byte>, i: nat, b: Byte)
    requires h < U64 && i < |s| && b != s[i]
    ensures Hash(h, s[i := b]) != Hash(h, s)
    decreases |s|
  {
    if i == 0 {
      if HashStep(h, b) == HashStep(h, s[0]) { StepInjective(h, h, b, s[0]); }
      HashSeparates(HashStep(h, b), HashStep(h, s[0]), s[1..]);
      assert s[0 := b][1..] == s[1..];
    } else {
      HashDetects(HashStep(h, s[0]), s[1..], i - 1, b);
      assert s[i := b][1..] == s[1..][i - 1 := b];
    }
  }

  /** The checksum of nothing and of the single bytes zero and one. */
  lemma ShortChecksums()
    ensures Checksum([]) == 1469598103934665603
    ensures Checksum([0x00]) == 4953163356653287321 && Checksum([0x01]) == 4953162257141659110
  {
    hide Hash;
    XorZero(HASH_START);
    XorZero(HASH_START / 2);
    OneStep(0x00);
    OneStep(0x01);
    assert Xor(HASH_START, 1) == 2 * Xor(HASH_START / 2, 0);
  }

  lemma OneStep(b: Byte)
    ensures Checksum([b]) == HashStep(HASH_START, b) && Checksum([]) == HASH_START
  {
    assert Hash(HASH_START, [b]) == Hash(HashStep(HASH_START, b), [b][1..]);
  }

  // ----- the frame -----

  function Header(n: nat): (s: seq<Byte>)
    ensures |s| == HEADER
  {
    Le(MAGIC, 4) + Le(VERSION, 4) + Le(n, 8)
  }

  function Frame(payload: seq<Byte>): seq<Byte> {
    var body := Header(|payload|) + payload;
    body + Le(Checksum(body), TRAILER)
  }

  datatype Fault = TooShort | BadMagic | BadVersion | LengthMismatch | ChecksumMismatch
  datatype Reading = Payload(bytes: seq<Byte>) | Corrupt(fault: Fault)

  /** Validate a frame. The length test is done in 64-bit arithmetic. */
  function Read(s: seq<Byte>): Reading {
    if |s| < HEADER + TRAILER then Corrupt(TooShort)
    else if FromLe(s[0..4]) != MAGIC then Corrupt(BadMagic)
    else if FromLe(s[4..8]) != VERSION then Corrupt(BadVersion)
    else if (FromLe(s[8..16]) + HEADER + TRAILER) % U64 != |s| then Corrupt(LengthMismatch)
    else if Checksum(s[..|s| - TRAILER]) != FromLe(s[|s| - TRAILER..]) then Corrupt(ChecksumMismatch)
    else Payload(s[HEADER..|s| - TRAILER])
  }

  lemma HeaderParts(n: nat, rest: seq<Byte>)
    requires n < U64
    ensures var s := Header(n) + rest;
            FromLe(s[0..4]) == MAGIC && FromLe(s[4..8]) == VERSION && FromLe(s[8..16]) == n
  {
    hide Le, FromLe, Pow256;
    var s := Header(n) + rest;
    WordSizes();
    LeRoundTrip(MAGIC, 4);
    LeRoundTrip(VERSION, 4);
    LeRoundTrip(n, 8);
    assert s[0..4] == Le(MAGIC, 4) && s[4..8] == Le(VERSION, 4) && s[8..16] == Le(n, 8);
  }

  /** Reading a written frame returns its payload. */
  lemma ReadBack(payload: seq<Byte>)
    requires |payload| + HEADER + TRAILER < U64
    ensures Read(Frame(payload)) == Payload(payload)
  {
    hide Le, FromLe, Hash, Pow256;
    var body, s := Header(|payload|) + payload, Frame(payload);
    var sum := Le(Checksum(body), TRAILER);
    assert s == Header(|payload|) + (payload + sum);
    HeaderParts(|payload|, payload + sum);
    assert s[..|s| - TRAILER] == body && s[|s| - TRAILER..] == sum && s[HEADER..|s| - TRAILER] == payload;
    HashInRange(HASH_START, body);
    WordSizes();
    LeRoundTrip(Checksum(body), 8);
  }

  /** The reader accepts nothing but written frames. */
  lemma OnlyFramesAccepted(s: seq<Byte>)
    requires |s| < U64 && Read(s).Payload?
    ensures s == Frame(Read(s).bytes)
  {
    hide Le, FromLe, Hash, Pow256;
    var payload := Read(s).bytes;
    var n, c := FromLe(s[8..16]), FromLe(s[|s| - TRAILER..]);
    WordSizes();
    FromLeRoundTrip(s[0..4]);
    FromLeRoundTrip(s[4..8]);
    FromLeRoundTrip(s[8..16]);
    FromLeRoundTrip(s[|s| - TRAILER..]);
    assert n < U64 && n == |payload|;
    assert s[..16] == s[0..4] + s[4..8] + s[8..16];
    assert s[..16] == Header(|payload|);
    assert s[..|s| - TRAILER] == s[..16] + payload;
    assert s == s[..|s| - TRAILER] + s[|s| - TRAILER..];
  }

  lemma MagicBytes()
    ensures Le(MAGIC, 4) == [0x53, 0x46, 0x53, 0x49] && Le(VERSION, 4) == [0x01, 0x00, 0x00, 0x00]
  {
    assert Le(MAGIC, 4) == [MAGIC % 256] + ([MAGIC / 256 % 256] +
        ([MAGIC / 65536 % 256] + ([MAGIC / 16777216 % 256] + [])));
    assert Le(VERSION, 4) == [1] + ([0] + ([0] + ([0] + [])));
  }

  /** The bytes of a frame: four of magic and four of version, the length of the payload in eight, least significant
      first, the payload, and eight of checksum over everything before. */
  lemma FrameLayout(payload: seq<Byte>)
    ensures var s, n := Frame(payload), |payload|;
            && |s| == n + 24
            && s[..8] == [0x53, 0x46, 0x53, 0x49, 0x01, 0x00, 0x00, 0x00]
            && s[8..16] == Le(n, 8) && s[16..n + 16] == payload && s[n + 16..] == Le(Checksum(s[..n + 16]), 8)
  {
    MagicBytes();
    hide Le, Hash;
    var s, n := Frame(payload), |payload|;
    var body := Header(n) + payload;
    assert s[..n + 16] == body;
    assert s[..8] == Le(MAGIC, 4) + Le(VERSION, 4);
  }

  /** A frame is refused for the first of these that is wrong with it: fewer than 24 bytes, the magic, the version,
      a length field that is not the length of what is between header and trailer, the checksum. */
  lemma FaultExact(s: seq<Byte>)
    requires |s| < U64
    ensures Read(s) == Corrupt(TooShort) <==> |s| < 24
    ensures |s| >= 24 ==>
              var magic, version := s[0..4] == [0x53, 0x46, 0x53, 0x49], s[4..8] == [0x01, 0x00, 0x00, 0x00];
              var length, sum := FromLe(s[8..16]) == |s| - 24, s[|s| - 8..] == Le(Checksum(s[..|s| - 8]), 8);
              && (Read(s) == Corrupt(BadMagic) <==> !magic)
              && (Read(s) == Corrupt(BadVersion) <==> magic && !version)
              && (Read(s) == Corrupt(LengthMismatch) <==> magic && version && !length)
              && (Read(s) == Corrupt(ChecksumMismatch) <==> magic && version && length && !sum)
              && (Read(s) == Payload(s[16..|s| - 8]) <==> magic && version && length && sum)
  {
    hide Le, FromLe, Hash, Pow256;
    if |s| >= 24 {
      WordSizes();
      MagicBytes();
      WordIs(s[0..4], MAGIC);
      WordIs(s[4..8], VERSION);
      HashInRange(HASH_START, s[..|s| - 8]);
      WordIs(s[|s| - 8..], Checksum(s[..|s| - 8]));
      FromLeRoundTrip(s[8..16]);
    }
  }

  lemma WordIs(s: seq<Byte>, v: nat)
    requires v < Pow256(|s|)
    ensures FromLe(s) == v <==> s == Le(v, |s|)
  {
    FromLeRoundTrip(s);
    LeRoundTrip(v, |s|);
  }

  /** Changing any one byte of a written frame, in header, payload or trailer, is detected. */
  lemma OneByteDetected(payload: seq<Byte>, i: nat, b: Byte)
    requires |payload| + HEADER + TRAILER < U64 && i < |Frame(payload)| && b != Frame(payload)[i]
    ensures Read(Frame(payload)[i := b]).Corrupt?
  {
    var s := Frame(payload);
    var t := s[i := b];
    if Read(t).Payload? {
      var other := Read(t).bytes;
      OnlyFramesAccepted(t);
      assert |other| == |payload|;
      SameLengthFrames(payload, other, i);
    }
  }

  /** Frames of one length that differ in at most one byte are equal. */
  lemma SameLengthFrames(p: seq<Byte>, q: seq<Byte>, i: nat)
    requires |p| == |q| && i < |Frame(p)| && |Frame(p)| == |Frame(q)|
    requires forall k :: 0 <= k < |Frame(p)| && k != i ==> Frame(p)[k] == Frame(q)[k]
    ensures Frame(p) == Frame(q)
  {
    hide Le, FromLe, Hash, Pow256;
    var s, t := Frame(p), Frame(q);
    var n := |p| + HEADER;
    assert s[..n] == Header(|p|) + p && t[..n] == Header(|p|) + q;
    assert s[n..] == Le(Checksum(s[..n]), TRAILER) && t[n..] == Le(Checksum(t[..n]), TRAILER);
    if i >= n {
      assert s[..n] == t[..n];
    } else {
      assert s[n..] == t[n..];
      HashInRange(HASH_START, s[..n]);
      HashInRange(HASH_START, t[..n]);
      WordSizes();
      LeRoundTrip(Checksum(s[..n]), 8);
      LeRoundTrip(Checksum(t[..n]), 8);
      assert Checksum(s[..n]) == Checksum(t[..n]);
      assert t[..n] == s[..n][i := t[i]];
      if s[i] != t[i] { HashDetects(HASH_START, s[..n], i, t[i]); }
      assert s[..n] == t[..n];
    }
    assert s == s[..n] + s[n..] && t == t[..n] + t[n..];
  }

  // ----- the code -----

  method ChecksumOf(s: seq<Byte>) returns (h: nat)
    ensures h == Checksum(s)
  {
    h := HASH_START;
    var i := 0;
    while i < |s|
      invariant 0 <= i <= |s| && Hash(h, s[i..]) == Checksum(s)
    {
      assert s[i..][0] == s[i] && s[i..][1..] == s[i + 1..];
      h := HashStep(h, s[i]);
      i := i + 1;
    }
  }

  /** Append an n-byte word. */
  method Put(s: seq<Byte>, v: nat, n: nat) returns (t: seq<Byte>)
    ensures t == s + Le(v, n)
  {
    t := s;
    var i, rest := 0, v;
    while i < n
      invariant 0 <= i <= n && t + Le(rest, n - i) == s + Le(v, n)
    {
      t, rest, i := t + [rest % 256], rest / 256, i + 1;
    }
  }

  /** Read an n-byte word at an offset and move past it. */
  method Get(s: seq<Byte>, off: nat, n: nat) returns (ok: bool, next: nat, v: nat)
    ensures ok <==> off + n <= |s|
    ensures ok ==> next == off + n && v == FromLe(s[off..off + n])
    ensures !ok ==> next == off
  {
    v, next := 0, off;
    ok := off + n <= |s|;
    if !ok { return; }
    next := off + n;
    var i := n;
    while i > 0
      invariant 0 <= i <= n && v == FromLe(s[off + i..off + n])
    {
      i := i - 1;
      assert s[off + i..off + n][1..] == s[off + i + 1..off + n];
      v := s[off + i] + 256 * v;
    }
  }

  method WriteFrame(payload: seq<Byte>) returns (frame: seq<Byte>)
    ensures frame == Frame(payload)
  {
    hide Le, Hash;
    frame := Put([], MAGIC, 4);
    frame := Put(frame, VERSION, 4);
    frame := Put(frame, |payload|, 8);
    assert frame == Header(|payload|);
    frame := frame + payload;
    var sum := ChecksumOf(frame);
    frame := Put(frame, sum, TRAILER);
  }

  method ReadFrame(s: seq<Byte>) returns (r: Reading)
    ensures r == Read(s)
  {
    hide FromLe, Hash;
    if |s| < HEADER + TRAILER { return Corrupt(TooShort); }
    var off, magic, version, len, sum := 0, 0, 0, 0, 0;
    var ok: bool;
    ok, off, magic := Get(s, off, 4);
    ok, off, version := Get(s, off, 4);
    ok, off, len := Get(s, off, 8);
    ok, off, sum := Get(s, |s| - TRAILER, TRAILER);
    assert s[|s| - TRAILER..|s|] == s[|s| - TRAILER..];
    if magic != MAGIC { return Corrupt(BadMagic); }
    if version != VERSION { return Corrupt(BadVersion); }
    if (len + HEADER + TRAILER) % U64 != |s| { return Corrupt(LengthMismatch); }
    var prefix := s[..|s| - TRAILER];
    var actual := ChecksumOf(prefix);
    if actual != sum { return Corrupt(ChecksumMismatch); }
    return Payload(s[HEADER..|s| - TRAILER]);
  }
}
