/** The hand-written base64 encoder against section 4 of RFC 4648: its bit shifts
    compute the standard's grouping, and a decoder recovers what went in. */
module Base64 {
  import opened Basics
  import opened Protocol

  type Sextet = v: int | 0 <= v < 64

  const ALPHABET := "ABCDEFGHIJKLMNOP" + "QRSTUVWXYZabcdef" + "ghijklmnopqrstuv" + "wxyz0123456789+/"

  const PAD := '='

  // ---------------------------------------------------------------------------
  // The standard's encoding
  // ---------------------------------------------------------------------------

  /** Table 1 of RFC 4648. */
  function Symbol(v: Sextet): char {
    if v < 26 then ('A' as int + v) as char
    else if v < 52 then ('a' as int + v - 26) as char
    else if v < 62 then ('0' as int + v - 52) as char
    else if v == 62 then '+'
    else '/'
  }

  function ByteAt(chunk: seq<Byte>, i: nat): Byte {
    if i < |chunk| then chunk[i] else 0
  }

  /** The four sextets of up to three bytes, most significant first; missing bits
      count as zero. */
  function SextetAt(chunk: seq<Byte>, i: nat): Sextet {
    match i
    case 0 => ByteAt(chunk, 0) as int / 4
    case 1 => ByteAt(chunk, 0) as int % 4 * 16 + ByteAt(chunk, 1) as int / 16
    case 2 => ByteAt(chunk, 1) as int % 16 * 4 + ByteAt(chunk, 2) as int / 64
    case _ => ByteAt(chunk, 2) as int % 64
  }

  /** One group; characters that carry no bits at all become padding. */
  function Group(chunk: seq<Byte>): (g: string)
    ensures |g| == 4
  {
    seq(4, i requires 0 <= i < 4 => if i <= |chunk| then Symbol(SextetAt(chunk, i)) else PAD)
  }

  function Chunk(bytes: seq<Byte>): seq<Byte> {
    if |bytes| > 3 then bytes[..3] else bytes
  }

  function Encode(bytes: seq<Byte>): string {
    if bytes == [] then ""
    else Group(Chunk(bytes)) + Encode(bytes[|Chunk(bytes)|..])
  }

  // ---------------------------------------------------------------------------
  // The encoder
  // ---------------------------------------------------------------------------

  /** The encoder's string literal is the standard's table. */
  lemma AlphabetIsTable(v: Sextet)
    ensures |ALPHABET| == 64 && ALPHABET[v] == Symbol(v)
  {
  }

  // Words as the numbers they stand for; every one here is below 2^24, so nothing
  // falls off the end of 32 bits.

  function Pow2(k: nat): (p: nat)
    ensures p > 0
  {
    if k == 0 then 1 else 2 * Pow2(k - 1)
  }

  function Shl(a: nat, k: nat): nat {
    a * Pow2(k)
  }

  function Shr(a: nat, k: nat): nat {
    if k == 0 then a else Shr(a / 2, k - 1)
  }

  /** Bit by bit, from the lowest. */
  function Or(a: nat, b: nat): nat {
    if a == 0 && b == 0 then 0
    else 2 * Or(a / 2, b / 2) + if a % 2 == 1 || b % 2 == 1 then 1 else 0
  }

  function And(a: nat, b: nat): nat {
    if a == 0 || b == 0 then 0
    else 2 * And(a / 2, b / 2) + if a % 2 == 1 && b % 2 == 1 then 1 else 0
  }

  /** Joining bits that do not overlap is adding. */
  lemma {:induction false} OrIsSum(high: nat, low: nat, k: nat)
    requires low < Pow2(k)
    ensures Or(Shl(high, k), low) == Shl(high, k) + low
  {
    if k == 0 {
      OrZero(high);
    } else {
      var a := Shl(high, k);
      assert a == 2 * Shl(high, k - 1);
      if a != 0 || low != 0 {
        OrIsSum(high, low / 2, k - 1);
      }
    }
  }

  lemma {:induction false} OrZero(a: nat)
    ensures Or(a, 0) == a
  {
    if a > 0 {
      OrZero(a / 2);
    }
  }

  lemma AndStep(a: nat, m: nat)
    ensures And(a, 2 * m + 1) == 2 * And(a / 2, m) + a % 2
  {
    assert (2 * m + 1) / 2 == m;
  }

  lemma ThreeSteps(a: nat, m: nat)
    ensures And(a, 8 * m + 7) == 8 * And(a / 8, m) + a % 8
  {
    AndStep(a, 4 * m + 3);
    AndStep(a / 2, 2 * m + 1);
    AndStep(a / 4, m);
    assert a / 2 / 2 == a / 4 && a / 4 / 2 == a / 8;
  }

  /** Masking with six ones leaves the last sextet. */
  lemma SixOnes(rest: nat, last: Sextet)
    ensures And(64 * rest + last, 0x3f) == last
  {
    var e, f := last / 8, last % 8;
    var t, u := 64 * rest + last, 8 * rest + e;
    assert t / 8 == u && t % 8 == f;
    assert u / 8 == rest && u % 8 == e;
    ThreeSteps(t, 7);
    ThreeSteps(u, 0);
  }

  /** Shifting down six bits drops it. */
  lemma SixDown(rest: nat, last: Sextet)
    ensures Shr(64 * rest + last, 6) == rest
  {
    var t := 64 * rest + last;
    assert Shr(t / 32, 1) == rest;
    assert Shr(t / 8, 3) == rest;
    assert Shr(t / 4, 4) == rest;
    assert Shr(t / 2, 5) == rest;
  }

  lemma {:induction false} ShrTwice(a: nat, j: nat, k: nat)
    ensures Shr(Shr(a, j), k) == Shr(a, j + k)
    decreases j
  {
    if j > 0 {
      ShrTwice(a / 2, j - 1, k);
    }
  }

  /** The three bytes joined into one number. */
  function Joined(b0: Byte, b1: Byte, b2: Byte): nat {
    Or(Or(Shl(b0 as int, 16), Shl(b1 as int, 8)), b2 as int)
  }

  lemma JoinedIsSum(b0: Byte, b1: Byte, b2: Byte)
    ensures Joined(b0, b1, b2) == b0 as int * 0x1_0000 + b1 as int * 0x100 + b2 as int < 0x100_0000
  {
    Powers();
    OrIsSum(b0 as int, Shl(b1 as int, 8), 16);
    assert Shl(b0 as int, 16) + Shl(b1 as int, 8) == Shl(b0 as int * 0x100 + b1 as int, 8);
    OrIsSum(b0 as int * 0x100 + b1 as int, b2 as int, 8);
  }

  lemma Powers()
    ensures Pow2(8) == 0x100 && Pow2(16) == 0x1_0000
  {
    assert Pow2(4) == 0x10;
    assert Pow2(12) == 0x1000;
  }

  lemma ShiftedDown(a: Sextet, b: Sextet, c: Sextet, d: Sextet)
    ensures var t := 64 * (64 * (64 * a + b) + c) + d;
            Shr(t, 6) == 64 * (64 * a + b) + c && Shr(t, 12) == 64 * a + b && Shr(t, 18) == a
  {
    var ab := 64 * a + b;
    var abc := 64 * ab + c;
    var t := 64 * abc + d;
    SixDown(abc, d);
    ShrTwice(t, 6, 6);
    SixDown(ab, c);
    ShrTwice(t, 12, 6);
    SixDown(a, b);
  }

  lemma SextetsDown(a: Sextet, b: Sextet, c: Sextet, d: Sextet, t: nat)
    requires t == a * 0x4_0000 + b * 0x1000 + c * 0x40 + d
    ensures And(Shr(t, 18), 0x3f) == a && And(Shr(t, 12), 0x3f) == b
    ensures And(Shr(t, 6), 0x3f) == c && And(t, 0x3f) == d
  {
    ShiftedDown(a, b, c, d);
    SixOnes(0, a);
    SixOnes(a, b);
    SixOnes(64 * a + b, c);
    SixOnes(64 * (64 * a + b) + c, d);
  }

  /** Shifting the joined bytes down and masking six bits picks out the four sextets of
      the standard. */
  lemma ShiftsPickSextets(chunk: seq<Byte>, t: nat)
    requires t == Joined(ByteAt(chunk, 0), ByteAt(chunk, 1), ByteAt(chunk, 2))
    ensures And(Shr(t, 18), 0x3f) == SextetAt(chunk, 0) && And(Shr(t, 12), 0x3f) == SextetAt(chunk, 1)
    ensures And(Shr(t, 6), 0x3f) == SextetAt(chunk, 2) && And(t, 0x3f) == SextetAt(chunk, 3)
  {
    JoinedIsSum(ByteAt(chunk, 0), ByteAt(chunk, 1), ByteAt(chunk, 2));
    SextetsDown(SextetAt(chunk, 0), SextetAt(chunk, 1), SextetAt(chunk, 2), SextetAt(chunk, 3), t);
  }

  method PushGroup(chunk: seq<Byte>, out: string) returns (text: string)
    requires 1 <= |chunk| <= 3
    ensures text == out + Group(chunk)
  {
    var b0 := chunk[0];
    var b1 := if |chunk| > 1 then chunk[1] else 0;
    var b2 := if |chunk| > 2 then chunk[2] else 0;
    var triple := Joined(b0, b1, b2);
    ShiftsPickSextets(chunk, triple);
    var first := Pick(And(Shr(triple, 18), 0x3f));
    text := out + [first];
    var second := Pick(And(Shr(triple, 12), 0x3f));
    text := text + [second];
    var third := Pick(And(Shr(triple, 6), 0x3f));
    text := text + [if |chunk| > 1 then third else PAD];
    var fourth := Pick(And(triple, 0x3f));
    text := text + [if |chunk| > 2 then fourth else PAD];
  }

  method Pick(v: Sextet) returns (c: char)
    ensures c == Symbol(v)
  {
    AlphabetIsTable(v);
    c := ALPHABET[v];
  }

  /** Appends the standard's encoding of `bytes` to what is already in `out`. */
  method Base64Into(bytes: seq<Byte>, out: string) returns (text: string)
    ensures text == out + Encode(bytes)
  {
    text := out;
    var at := 0;
    while at < |bytes|
      invariant 0 <= at <= |bytes|
      invariant text + Encode(bytes[at..]) == out + Encode(bytes)
    {
      text, at := PushNext(bytes, at, text);
    }
  }

  method PushNext(bytes: seq<Byte>, at: nat, out: string) returns (text: string, end: nat)
    requires at < |bytes|
    ensures at < end <= |bytes| && text + Encode(bytes[end..]) == out + Encode(bytes[at..])
  {
    end := if at + 3 < |bytes| then at + 3 else |bytes|;
    EncodeFrom(bytes, at, end);
    text := PushGroup(bytes[at..end], out);
  }

  lemma EncodeFrom(bytes: seq<Byte>, at: nat, end: nat)
    requires at < |bytes| && end == if at + 3 < |bytes| then at + 3 else |bytes|
    ensures Encode(bytes[at..]) == Group(bytes[at..end]) + Encode(bytes[end..])
  {
    var rest := bytes[at..];
    assert Chunk(rest) == bytes[at..end] && rest[end - at..] == bytes[end..];
  }

  /** Two of the vectors of section 10 of RFC 4648, and the last two characters of the
      alphabet. */
  lemma Vectors()
    ensures Encode([102, 111, 111, 98, 97, 114]) == "Zm9vYmFy"
    ensures Encode([102]) == "Zg=="
    ensures Encode([251, 255]) == "+/8="
  {
    var all: seq<Byte> := [102, 111, 111, 98, 97, 114];
    var head: seq<Byte> := [102, 111, 111];
    var tail: seq<Byte> := [98, 97, 114];
    assert Chunk(all) == head && all[3..] == tail && Chunk(tail) == tail && tail[3..] == [];
    assert Group(head) == "Zm9v";
    assert Group(tail) == "YmFy";
    var one: seq<Byte> := [102];
    var two: seq<Byte> := [251, 255];
    assert Chunk(one) == one && one[1..] == [] && Chunk(two) == two && two[2..] == [];
    assert Group(one) == "Zg==";
    assert Group(two) == "+/8=";
  }

  // ---------------------------------------------------------------------------
  // The decoder
  // ---------------------------------------------------------------------------

  /** The value table 1 gives a character. */
  function Value(c: char): Option<Sextet> {
    if 'A' <= c <= 'Z' then Some(c as int - 'A' as int)
    else if 'a' <= c <= 'z' then Some(c as int - 'a' as int + 26)
    else if '0' <= c <= '9' then Some(c as int - '0' as int + 52)
    else if c == '+' then Some(62)
    else if c == '/' then Some(63)
    else None
  }

  function First(a: Sextet, b: Sextet): Byte {
    (a * 4 + b / 16) as Byte
  }

  function Second(b: Sextet, c: Sextet): Byte {
    (b % 16 * 16 + c / 4) as Byte
  }

  function Third(c: Sextet, d: Sextet): Byte {
    (c % 4 * 64 + d) as Byte
  }

  function Read(g: string): seq<Option<Sextet>> {
    seq(|g|, i requires 0 <= i < |g| => Value(g[i]))
  }

  /** The bytes of four values, the last one or two of them padding. Bits that
      padding makes unused must be zero. */
  function Assemble(v: seq<Option<Sextet>>, pad2: bool, pad3: bool): Option<seq<Byte>>
    requires |v| == 4
  {
    if v[0].None? || v[1].None? then None
    else if pad2 then
      if pad3 && v[1].value % 16 == 0 then Some([First(v[0].value, v[1].value)]) else None
    else if v[2].None? then None
    else if pad3 then
      if v[2].value % 4 == 0 then Some([First(v[0].value, v[1].value), Second(v[1].value, v[2].value)]) else None
    else if v[3].None? then None
    else Some([First(v[0].value, v[1].value), Second(v[1].value, v[2].value), Third(v[2].value, v[3].value)])
  }

  function Ungroup(g: string): Option<seq<Byte>>
    requires |g| == 4
  {
    Assemble(Read(g), g[2] == PAD, g[3] == PAD)
  }

  /** Only the last group may be padded. */
  function Decode(text: string): Option<seq<Byte>> {
    if text == "" then Some([])
    else if |text| < 4 then None
    else
      var head, tail := Ungroup(text[..4]), Decode(text[4..]);
      if head.None? || tail.None? || (|head.value| < 3 && text[4..] != "") then None
      else Some(head.value + tail.value)
  }

  // ---------------------------------------------------------------------------
  // Round trips
  // ---------------------------------------------------------------------------

  lemma ValueOfSymbol(v: Sextet)
    ensures Value(Symbol(v)) == Some(v) && Symbol(v) != PAD
  {
  }

  lemma SymbolOfValue(c: char)
    ensures Value(c).Some? ==> Symbol(Value(c).value) == c
  {
  }

  lemma Regroup(b0: Byte, b1: Byte, b2: Byte)
    ensures First(b0 as int / 4, b0 as int % 4 * 16 + b1 as int / 16) == b0
    ensures Second(b0 as int % 4 * 16 + b1 as int / 16, b1 as int % 16 * 4 + b2 as int / 64) == b1
    ensures Third(b1 as int % 16 * 4 + b2 as int / 64, b2 as int % 64) == b2
    ensures b1 == 0 ==> (b0 as int % 4 * 16 + b1 as int / 16) % 16 == 0
    ensures b2 == 0 ==> (b1 as int % 16 * 4 + b2 as int / 64) % 4 == 0
  {
  }

  lemma SextetsRegroup(chunk: seq<Byte>)
    requires 1 <= |chunk| <= 3
    ensures First(SextetAt(chunk, 0), SextetAt(chunk, 1)) == chunk[0]
    ensures Second(SextetAt(chunk, 1), SextetAt(chunk, 2)) == ByteAt(chunk, 1)
    ensures Third(SextetAt(chunk, 2), SextetAt(chunk, 3)) == ByteAt(chunk, 2)
    ensures |chunk| < 2 ==> SextetAt(chunk, 1) % 16 == 0
    ensures |chunk| < 3 ==> SextetAt(chunk, 2) % 4 == 0
  {
    Regroup(ByteAt(chunk, 0), ByteAt(chunk, 1), ByteAt(chunk, 2));
  }

  lemma AssembleKnown(v: seq<Option<Sextet>>, a: Sextet, b: Sextet, c: Sextet, d: Sextet, chunk: seq<Byte>)
    requires 1 <= |chunk| <= 3 && |v| == 4 && v[0] == Some(a) && v[1] == Some(b)
    requires First(a, b) == chunk[0] && (|chunk| < 2 ==> b % 16 == 0)
    requires |chunk| >= 2 ==> v[2] == Some(c) && Second(b, c) == chunk[1] && (|chunk| < 3 ==> c % 4 == 0)
    requires |chunk| >= 3 ==> v[3] == Some(d) && Third(c, d) == chunk[2]
    ensures Assemble(v, |chunk| < 2, |chunk| < 3) == Some(chunk)
  {
    if |chunk| == 1 {
      assert chunk == [First(a, b)];
    } else if |chunk| == 2 {
      assert chunk == [First(a, b), Second(b, c)];
    } else {
      assert chunk == [First(a, b), Second(b, c), Third(c, d)];
    }
  }

  /** Cutting sextets and assembling them gives the bytes back. */
  lemma AssembleSextets(chunk: seq<Byte>, v: seq<Option<Sextet>>)
    requires 1 <= |chunk| <= 3 && |v| == 4
    requires forall i :: 0 <= i <= |chunk| ==> v[i] == Some(SextetAt(chunk, i))
    ensures Assemble(v, |chunk| < 2, |chunk| < 3) == Some(chunk)
  {
    SextetsRegroup(chunk);
    AssembleKnown(v, SextetAt(chunk, 0), SextetAt(chunk, 1), SextetAt(chunk, 2), SextetAt(chunk, 3), chunk);
  }

  lemma Resplit(a: Sextet, b: Sextet, c: Sextet, d: Sextet)
    ensures First(a, b) as int / 4 == a
    ensures First(a, b) as int % 4 * 16 + Second(b, c) as int / 16 == b
    ensures Second(b, c) as int % 16 * 4 + Third(c, d) as int / 64 == c
    ensures Third(c, d) as int % 64 == d
    ensures b % 16 == 0 ==> First(a, b) as int % 4 * 16 + 0 / 16 == b
    ensures c % 4 == 0 ==> Second(b, c) as int % 16 * 4 + 0 / 64 == c
  {
  }

  /** And assembling first gives the sextets back. */
  lemma SextetsOfAssembled(v: seq<Option<Sextet>>, pad2: bool, pad3: bool)
    requires |v| == 4 && Assemble(v, pad2, pad3).Some?
    ensures var chunk := Assemble(v, pad2, pad3).value;
            && |chunk| == (if pad2 then 1 else if pad3 then 2 else 3) && (pad2 ==> pad3)
            && forall i :: 0 <= i <= |chunk| ==> v[i] == Some(SextetAt(chunk, i))
  {
    var a, b := v[0].value, v[1].value;
    var chunk := Assemble(v, pad2, pad3).value;
    var c := if pad2 then 0 else v[2].value;
    var d := if pad3 then 0 else v[3].value;
    Resplit(a, b, c, d);
    SextetsKnown(chunk, a, b, c, d);
  }

  lemma SextetsKnown(chunk: seq<Byte>, a: Sextet, b: Sextet, c: Sextet, d: Sextet)
    requires 1 <= |chunk| <= 3
    requires chunk == [First(a, b), Second(b, c), Third(c, d)][..|chunk|]
    requires |chunk| == 1 ==> b % 16 == 0
    requires |chunk| == 2 ==> c % 4 == 0
    ensures SextetAt(chunk, 0) == a && SextetAt(chunk, 1) == b
    ensures |chunk| >= 2 ==> SextetAt(chunk, 2) == c
    ensures |chunk| >= 3 ==> SextetAt(chunk, 3) == d
  {
    Resplit(a, b, c, d);
  }

  lemma GroupShape(chunk: seq<Byte>)
    requires 1 <= |chunk| <= 3
    ensures forall i :: 0 <= i < 4 ==>
              if i <= |chunk| then Value(Group(chunk)[i]) == Some(SextetAt(chunk, i)) && Group(chunk)[i] != PAD
              else Group(chunk)[i] == PAD
  {
    forall i | 0 <= i < 4 && i <= |chunk|
      ensures Value(Group(chunk)[i]) == Some(SextetAt(chunk, i)) && Group(chunk)[i] != PAD
    {
      ValueOfSymbol(SextetAt(chunk, i));
    }
  }

  lemma GroupRoundTrip(chunk: seq<Byte>)
    requires 1 <= |chunk| <= 3
    ensures Ungroup(Group(chunk)) == Some(chunk)
  {
    GroupShape(chunk);
    AssembleSextets(chunk, Read(Group(chunk)));
  }

  lemma GroupOnto(g: string)
    requires |g| == 4 && Ungroup(g).Some?
    ensures 1 <= |Ungroup(g).value| <= 3 && Group(Ungroup(g).value) == g
  {
    var chunk := Ungroup(g).value;
    SextetsOfAssembled(Read(g), g[2] == PAD, g[3] == PAD);
    forall i | 0 <= i < 4 ensures Group(chunk)[i] == g[i] {
      if i <= |chunk| {
        assert Read(g)[i] == Value(g[i]);
        SymbolOfValue(g[i]);
      }
    }
  }

  lemma DecodeGroupFirst(g: string, rest: string)
    requires |g| == 4 && Ungroup(g).Some? && Decode(rest).Some? && (|Ungroup(g).value| == 3 || rest == "")
    ensures Decode(g + rest) == Some(Ungroup(g).value + Decode(rest).value)
  {
    assert (g + rest)[..4] == g && (g + rest)[4..] == rest;
  }

  /** Decoding recovers every byte string from its encoding. */
  lemma {:induction false} EncodeRoundTrip(bytes: seq<Byte>)
    ensures Decode(Encode(bytes)) == Some(bytes)
  {
    if bytes != [] {
      var chunk := Chunk(bytes);
      var rest := bytes[|chunk|..];
      GroupRoundTrip(chunk);
      EncodeRoundTrip(rest);
      DecodeGroupFirst(Group(chunk), Encode(rest));
      assert chunk + rest == bytes;
      assert |chunk| < 3 ==> rest == [];
    }
  }

  /** And a text decodes to some bytes exactly when it is their encoding: the
      encoder produces the canonical form, and every canonical form. */
  lemma {:induction false} DecodesIffEncoding(text: string, bytes: seq<Byte>)
    ensures Decode(text) == Some(bytes) <==> text == Encode(bytes)
    decreases |text|
  {
    EncodeRoundTrip(bytes);
    if Decode(text) == Some(bytes) && text != "" {
      var head, tail := Ungroup(text[..4]).value, Decode(text[4..]).value;
      GroupOnto(text[..4]);
      DecodesIffEncoding(text[4..], tail);
      assert bytes == head + tail && text == text[..4] + text[4..];
      if |head| == 3 {
        assert Chunk(bytes) == head && bytes[3..] == tail;
      } else {
        assert tail == [] && Chunk(bytes) == head && bytes[|head|..] == [];
      }
    }
  }

  lemma EncodeIsInjective(a: seq<Byte>, b: seq<Byte>)
    ensures Encode(a) == Encode(b) <==> a == b
  {
    EncodeRoundTrip(a);
    EncodeRoundTrip(b);
  }

  /** How many bytes the last chunk is short of three. */
  function Pads(n: nat): nat {
    (3 - n % 3) % 3
  }

  /** Four characters for every three bytes begun. */
  lemma {:induction false} EncodeLength(bytes: seq<Byte>)
    ensures |Encode(bytes)| == 4 * ((|bytes| + 2) / 3)
  {
    if bytes != [] {
      EncodeLength(bytes[|Chunk(bytes)|..]);
    }
  }

  lemma PadsOfRest(n: nat, chunk: nat)
    requires 1 <= chunk <= 3 && chunk <= n && (chunk == 3 || n == chunk)
    ensures Pads(n) == if n == chunk then 3 - chunk else Pads(n - chunk)
    ensures Pads(n) <= 2
  {
  }

  /** All characters are from the alphabet but for as many trailing pads as the
      last chunk is short of bytes. */
  lemma {:induction false} EncodeShape(bytes: seq<Byte>)
    ensures var text, pads := Encode(bytes), Pads(|bytes|);
            && pads <= |text|
            && forall i :: 0 <= i < |text| ==> if i < |text| - pads then Value(text[i]).Some? else text[i] == PAD
  {
    if bytes != [] {
      var chunk := Chunk(bytes);
      var rest := bytes[|chunk|..];
      GroupShape(chunk);
      EncodeShape(rest);
      PadsOfRest(|bytes|, |chunk|);
      ShapeJoins(Group(chunk), Encode(rest), 3 - |chunk|, Pads(|rest|));
    }
  }

  lemma ShapeJoins(head: string, tail: string, headPads: nat, tailPads: nat)
    requires |head| == 4 && headPads <= 2 && tailPads <= |tail| && (tail == "" || headPads == 0)
    requires forall i :: 0 <= i < 4 ==> if i < 4 - headPads then Value(head[i]).Some? else head[i] == PAD
    requires forall i :: 0 <= i < |tail| ==> if i < |tail| - tailPads then Value(tail[i]).Some? else tail[i] == PAD
    ensures var text, pads := head + tail, if tail == "" then headPads else tailPads;
            && pads <= |text|
            && forall i :: 0 <= i < |text| ==> if i < |text| - pads then Value(text[i]).Some? else text[i] == PAD
  {
  }
}
