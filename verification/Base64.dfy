/**
 Base64 (src/core/base64.cpp): sections 4 and 5 of RFC 4648, encoded by quanta and decoded
 through a 32-bit accumulator that is never cleared.
 */
module Base64 {
  import opened Bytes
  import opened Options
  import opened Division
  import opened Numbers

  type Sextet = v: int | 0 <= v < 64

  // The alphabet tables by range: kUrl differs from kStd in its last two characters.
  function Letter(url: bool, v: Sextet): char {
    if v < 26 then 'A' + v as char
    else if v < 52 then 'a' + (v - 26) as char
    else if v < 62 then '0' + (v - 52) as char
    else if v == 62 then (if url then '-' else '+')
    else (if url then '_' else '/')
  }

  function Word(a: int, b: int, c: int): int { a * 0x1_0000 + b * 0x100 + c }

  function Quad(n: nat): seq<Sextet> { [n / 0x4_0000 % 64, n / 0x1000 % 64, n / 64 % 64, n % 64] }

  function Sextets(data: seq<Byte>): seq<Sextet>
    decreases |data|
  {
    if |data| == 0 then []
    else if |data| == 1 then Quad(Word(data[0], 0, 0))[..2]
    else if |data| == 2 then Quad(Word(data[0], data[1], 0))[..3]
    else Quad(Word(data[0], data[1], data[2])) + Sextets(data[3..])
  }

  function Letters(url: bool, vs: seq<Sextet>): string {
    seq(|vs|, i requires 0 <= i < |vs| => Letter(url, vs[i]))
  }

  function Padding(n: nat, pad: bool): string {
    if !pad || n % 3 == 0 then "" else if n % 3 == 1 then "==" else "="
  }

  function Encoded(data: seq<Byte>, url: bool, pad: bool): string {
    Letters(url, Sextets(data)) + Padding(|data|, pad)
  }

  function DecodeChar(c: char): int {
    if 'A' <= c <= 'Z' then c as int - 'A' as int
    else if 'a' <= c <= 'z' then c as int - 'a' as int + 26
    else if '0' <= c <= '9' then c as int - '0' as int + 52
    else if c == '+' || c == '-' then 62
    else if c == '/' || c == '_' then 63
    else -1
  }

  predicate Ignored(c: char) { c == '=' || c == '\n' || c == '\r' }

  function ShiftRight(x: nat, n: nat): nat
    decreases n
  {
    if n == 0 then x else ShiftRight(x / 2, n - 1)
  }

  // One letter through the accumulator: only its low bits are ever read, so the overflow is harmless.
  function Shifted(acc: nat, v: Sextet): (r: nat)
    ensures r % 4096 == Pair(acc % 64, v) && r % 64 == v
  {
    ShiftedLowBits(acc, v);
    Wrapped(acc * 64 + v)
  }

  // What 32 bits keep of a number.
  function Wrapped(x: nat): (r: nat)
    ensures r < TWO_32
    decreases x
  {
    if x < TWO_32 then x else Wrapped(x - TWO_32)
  }

  lemma {:induction false} WrappedKeepsLowBits(x: nat)
    ensures Wrapped(x) % 4096 == x % 4096 && Wrapped(x) % 64 == x % 64
    decreases x
  {
    if x >= TWO_32 {
      WrappedKeepsLowBits(x - TWO_32);
      Quotient(x - TWO_32, 4096, x / 4096 - 0x10_0000, x % 4096);
      Quotient(x - TWO_32, 64, x / 64 - 0x400_0000, x % 64);
    }
  }

  function Pair(a: int, b: int): int { a * 64 + b }

  lemma ShiftedLowBits(acc: nat, v: Sextet)
    ensures var r := Wrapped(acc * 64 + v); r % 4096 == Pair(acc % 64, v) && r % 64 == v
  {
    var x := acc * 64 + v;
    WrappedKeepsLowBits(x);
    Quotient(x, 4096, acc / 64, Pair(acc % 64, v));
    Quotient(x, 64, acc, v);
  }

  // What decoding `text` appends to the output when the loop holds `acc` and `bits`.
  function DecodedFrom(text: string, acc: nat, bits: nat): Option<seq<Byte>>
    decreases |text|
  {
    if text == "" then Some([])
    else if Ignored(text[0]) then DecodedFrom(text[1..], acc, bits)
    else if DecodeChar(text[0]) < 0 then None
    else
      var acc' := Shifted(acc, DecodeChar(text[0]));
      if bits + 6 < 8 then DecodedFrom(text[1..], acc', bits + 6)
      else Prepend([ShiftRight(acc', bits - 2) % 256], DecodedFrom(text[1..], acc', bits - 2))
  }

  function Prepend(bs: seq<Byte>, r: Option<seq<Byte>>): Option<seq<Byte>> {
    if r.None? then None else Some(bs + r.value)
  }

  function Decoded(text: string): Option<seq<Byte>> { DecodedFrom(text, 0, 0) }

  lemma LetterDecodes(url: bool, v: Sextet)
    ensures DecodeChar(Letter(url, v)) == v && !Ignored(Letter(url, v))
  {
  }

  // What the decoding loop appends for a list of letter values.
  function BytesOf(vs: seq<Sextet>, acc: nat, bits: nat): seq<Byte>
    decreases |vs|
  {
    if vs == [] then []
    else
      var acc' := Shifted(acc, vs[0]);
      if bits + 6 < 8 then BytesOf(vs[1..], acc', bits + 6)
      else [ShiftRight(acc', bits - 2) % 256] + BytesOf(vs[1..], acc', bits - 2)
  }

  lemma {:induction false} LettersDecode(url: bool, vs: seq<Sextet>, tail: string, acc: nat, bits: nat)
    requires tail in {"", "=", "=="}
    ensures DecodedFrom(Letters(url, vs) + tail, acc, bits) == Some(BytesOf(vs, acc, bits))
    decreases |vs|
  {
    if vs == [] {
      assert Letters(url, vs) + tail == tail;
      assert "=="[1..] == "=" && "="[1..] == "";
    } else {
      LetterDecodes(url, vs[0]);
      var text := Letters(url, vs) + tail;
      assert text[0] == Letter(url, vs[0]);
      assert text[1..] == Letters(url, vs[1..]) + tail;
      var acc' := Shifted(acc, vs[0]);
      LettersDecode(url, vs[1..], tail, acc', if bits + 6 < 8 then bits + 6 else bits - 2);
    }
  }

  lemma Shifts(x: nat)
    ensures ShiftRight(x, 2) == x / 4 && ShiftRight(x, 4) == x / 16
  {
    assert ShiftRight(x, 2) == ShiftRight(x / 2, 1) == ShiftRight(x / 2 / 2, 0);
    assert ShiftRight(x, 4) == ShiftRight(x / 2, 3) == ShiftRight(x / 2 / 2, 2);
    assert ShiftRight(x / 2 / 2, 2) == ShiftRight(x / 2 / 2 / 2, 1) == ShiftRight(x / 2 / 2 / 2 / 2, 0);
  }

  // Two adjacent letter values, read back through the low bits of the accumulator.
  lemma LowBits(acc: nat, p: nat)
    requires acc % 4096 == p
    ensures acc / 16 % 256 == p / 16 && acc / 4 % 256 == p / 4 % 256 && acc % 256 == p % 256
  {
    var k := acc / 4096;
    Quotient(acc, 16, 256 * k + p / 16, p % 16);
    Quotient(acc / 16, 256, k, p / 16);
    Quotient(acc, 4, 1024 * k + p / 4, p % 4);
    Quotient(acc / 4, 256, 4 * k + p / 4 / 256, p / 4 % 256);
    Quotient(acc, 256, 16 * k + p / 256, p % 256);
  }

  lemma QuadParts(x: Byte, y: Byte, z: Byte)
    ensures var q := Quad(Word(x, y, z));
      Pair(q[0], q[1]) / 16 == x && Pair(q[1], q[2]) / 4 % 256 == y && Pair(q[2], q[3]) % 256 == z
  {
    var n := Word(x, y, z);
    Quotient(n, 0x4_0000, x / 4, x % 4 * 0x1_0000 + y * 256 + z);
    Quotient(n, 0x1000, x * 16 + y / 16, y % 16 * 256 + z);
    Quotient(n / 0x1000, 64, x / 4, x % 4 * 16 + y / 16);
    Quotient(n, 64, x * 1024 + y * 4 + z / 64, z % 64);
    Quotient(n / 64, 64, x * 16 + y / 16, y % 16 * 4 + z / 64);
    var q := Quad(n);
    Quotient(Pair(q[0], q[1]), 16, x, y / 16);
    Quotient(Pair(q[1], q[2]), 4, x % 4 * 256 + y, z / 64);
    Quotient(Pair(q[1], q[2]) / 4, 256, x % 4, y);
    Quotient(Pair(q[2], q[3]), 256, y % 16, z);
  }

  // The steps of one quantum, for as many of its letters as `vs` has.
  lemma QuantumSteps(vs: seq<Sextet>, acc: nat) returns (acc': nat)
    requires |vs| >= 2
    ensures |vs| == 2 ==> BytesOf(vs, acc, 0) == [Pair(vs[0], vs[1]) / 16]
    ensures |vs| == 3 ==> BytesOf(vs, acc, 0) == [Pair(vs[0], vs[1]) / 16, Pair(vs[1], vs[2]) / 4 % 256]
    ensures |vs| >= 4 ==>
      BytesOf(vs, acc, 0) == [Pair(vs[0], vs[1]) / 16, Pair(vs[1], vs[2]) / 4 % 256, Pair(vs[2], vs[3]) % 256]
                             + BytesOf(vs[4..], acc', 0)
  {
    var acc1 := Shifted(acc, vs[0]);
    var acc2 := Shifted(acc1, vs[1]);
    Shifts(acc2);
    LowBits(acc2, Pair(vs[0], vs[1]));
    assert vs[1..][1..] == vs[2..];
    assert BytesOf(vs, acc, 0) == BytesOf(vs[1..], acc1, 6) == [Pair(vs[0], vs[1]) / 16] + BytesOf(vs[2..], acc2, 4);
    acc' := 0;
    if |vs| > 2 {
      var acc3 := Shifted(acc2, vs[2]);
      Shifts(acc3);
      LowBits(acc3, Pair(vs[1], vs[2]));
      assert vs[2..][1..] == vs[3..];
      assert BytesOf(vs[2..], acc2, 4) == [Pair(vs[1], vs[2]) / 4 % 256] + BytesOf(vs[3..], acc3, 2);
      if |vs| > 3 {
        acc' := Shifted(acc3, vs[3]);
        LowBits(acc', Pair(vs[2], vs[3]));
        assert ShiftRight(acc', 0) == acc' && vs[3..][1..] == vs[4..];
        assert BytesOf(vs[3..], acc3, 2) == [Pair(vs[2], vs[3]) % 256] + BytesOf(vs[4..], acc', 0);
      }
    }
  }

  lemma FullQuantumDecodes(data: seq<Byte>, acc: nat) returns (acc': nat)
    requires |data| >= 3
    ensures BytesOf(Sextets(data), acc, 0) == [data[0], data[1], data[2]] + BytesOf(Sextets(data[3..]), acc', 0)
  {
    QuadParts(data[0], data[1], data[2]);
    assert Sextets(data)[4..] == Sextets(data[3..]);
    acc' := QuantumSteps(Sextets(data), acc);
  }

  lemma TailDecodes(data: seq<Byte>, acc: nat)
    requires 1 <= |data| <= 2
    ensures BytesOf(Sextets(data), acc, 0) == data
  {
    QuadParts(data[0], if |data| > 1 then data[1] else 0, 0);
    var _ := QuantumSteps(Sextets(data), acc);
  }

  lemma {:induction false} SextetsDecode(data: seq<Byte>, acc: nat)
    ensures BytesOf(Sextets(data), acc, 0) == data
    decreases |data|
  {
    if |data| >= 3 {
      var acc' := FullQuantumDecodes(data, acc);
      SextetsDecode(data[3..], acc');
      assert data == [data[0], data[1], data[2]] + data[3..];
    } else if |data| > 0 {
      TailDecodes(data, acc);
    }
  }

  lemma RoundTripWith(data: seq<Byte>, url: bool, pad: bool)
    ensures Decoded(Encoded(data, url, pad)) == Some(data)
  {
    LettersDecode(url, Sextets(data), Padding(|data|, pad), 0, 0);
    SextetsDecode(data, 0);
  }

  /** Every byte string comes back, from the padded standard and from the unpadded URL-safe text. */
  lemma RoundTrip(data: seq<Byte>)
    ensures Decoded(Encoded(data, false, true)) == Some(data)
    ensures Decoded(Encoded(data, true, false)) == Some(data)
  {
    RoundTripWith(data, false, true);
    RoundTripWith(data, true, false);
  }

  function Stripped(text: string): string {
    if text == "" then ""
    else if Ignored(text[0]) then Stripped(text[1..])
    else [text[0]] + Stripped(text[1..])
  }

  /** Line breaks and padding may stand anywhere: decoding sees the text without them. */
  lemma {:induction false} BreaksAreIgnored(text: string, acc: nat, bits: nat)
    ensures DecodedFrom(Stripped(text), acc, bits) == DecodedFrom(text, acc, bits)
    decreases |text|
  {
    if text != "" {
      var s := Stripped(text[1..]);
      if Ignored(text[0]) || DecodeChar(text[0]) < 0 {
        BreaksAreIgnored(text[1..], acc, bits);
      } else {
        var acc' := Shifted(acc, DecodeChar(text[0]));
        BreaksAreIgnored(text[1..], acc', if bits + 6 < 8 then bits + 6 else bits - 2);
        assert ([text[0]] + s)[1..] == s;
      }
    }
  }

  // ---- the loops ----

  lemma LettersConcat(url: bool, a: seq<Sextet>, b: seq<Sextet>)
    ensures Letters(url, a + b) == Letters(url, a) + Letters(url, b)
  {
  }

  // One turn of the loop.
  lemma QuantumEncodes(data: seq<Byte>, url: bool, i: nat, out: string)
    requires i + 3 <= |data|
    ensures var q := Quad(Word(data[i], data[i + 1], data[i + 2]));
      out + Letters(url, Sextets(data[i..])) == out + Letters(url, q) + Letters(url, Sextets(data[i + 3..]))
  {
    var q := Quad(Word(data[i], data[i + 1], data[i + 2]));
    assert data[i..][3..] == data[i + 3..];
    assert Sextets(data[i..]) == q + Sextets(data[i + 3..]);
    LettersConcat(url, q, Sextets(data[i + 3..]));
  }

  method EncodeWith(data: seq<Byte>, url: bool, pad: bool) returns (out: string)
    ensures out == Encoded(data, url, pad)
  {
    out := "";
    var i := 0;
    ghost var quanta := 0;
    while i + 3 <= |data|
      invariant 0 <= i == 3 * quanta <= |data|
      invariant out + Letters(url, Sextets(data[i..])) == Letters(url, Sextets(data))
    {
      QuantumEncodes(data, url, i, out);
      var q := Quad(Word(data[i], data[i + 1], data[i + 2]));
      out := out + Letters(url, q);
      i, quanta := i + 3, quanta + 1;
    }
    out := out + Letters(url, Sextets(data[i..]));
    Quotient(|data|, 3, quanta, |data| - i);
    if pad && |data| - i == 1 {
      out := out + "==";
    } else if pad && |data| - i == 2 {
      out := out + "=";
    }
  }

  lemma PrependConcat(a: seq<Byte>, b: seq<Byte>, r: Option<seq<Byte>>)
    ensures Prepend(a, Prepend(b, r)) == Prepend(a + b, r)
  {
    if r.Some? {
      assert a + (b + r.value) == a + b + r.value;
    }
  }

  method Decode(text: string) returns (out: Option<seq<Byte>>)
    ensures out == Decoded(text)
  {
    var bytes: seq<Byte> := [];
    var acc, bits := 0, 0;
    assert text[0..] == text && forall bs: seq<Byte> :: [] + bs == bs;
    for i := 0 to |text|
      invariant 0 <= acc && 0 <= bits < 8
      invariant Decoded(text) == Prepend(bytes, DecodedFrom(text[i..], acc, bits))
    {
      assert text[i..][0] == text[i] && text[i..][1..] == text[i + 1..];
      if Ignored(text[i]) { continue; }
      var v := DecodeChar(text[i]);
      if v < 0 { return None; }
      acc := Shifted(acc, v);
      bits := bits + 6;
      if bits >= 8 {
        bits := bits - 8;
        PrependConcat(bytes, [ShiftRight(acc, bits) % 256], DecodedFrom(text[i + 1..], acc, bits));
        bytes := bytes + [ShiftRight(acc, bits) % 256];
      }
    }
    assert text[|text|..] == "" && bytes + [] == bytes;
    return Some(bytes);
  }
}
