/**
 MessagePack (src/graphql/json.cpp): the encoder appends to a buffer, the decoder moves a cursor
 and clears `ok`. The tags are those of the MessagePack specification, section "Formats".

 A JSON value is what yyjson holds: integers remember whether they are unsigned or signed, reals
 are their 64-bit pattern, strings are bytes, and an object is the sequence of its members.
 */
module MsgPack {
  import opened Bytes
  import opened Options
  import opened Division
  import opened Numbers
  import opened Sequences
  import Base64

  datatype Json =
    | Null
    | Bool(b: bool)
    | UInt(u: nat)
    | SInt(i: int)
    | Real(bits: nat)
    | Str(s: seq<Byte>)
    | Arr(elems: seq<Json>)
    | Obj(members: seq<Member>)
  datatype Member = Member(key: seq<Byte>, value: Json)

  const MAX_DEPTH := 64

  // ---- big-endian integers ----

  function Pow256(n: nat): nat { if n == 0 then 1 else 256 * Pow256(n - 1) }

  // The low `n` bytes of `v`, most significant first.
  function Be(v: nat, n: nat): (bs: seq<Byte>)
    ensures |bs| == n
    decreases n
  {
    if n == 0 then [] else Be(v / 256, n - 1) + [v % 256]
  }

  function FromBe(bs: seq<Byte>): nat {
    if bs == [] then 0 else FromBe(bs[..|bs| - 1]) * 256 + bs[|bs| - 1]
  }

  lemma {:induction false} Pow256Positive(n: nat)
    ensures Pow256(n) > 0
    decreases n
  {
    if n > 0 { Pow256Positive(n - 1); }
  }

  // Dividing by 256 and then by the rest of a power is dividing by the power.
  lemma DivDiv(v: nat, p: nat)
    requires p > 0
    ensures v / 256 / p == v / (256 * p) && v % (256 * p) == v / 256 % p * 256 + v % 256
  {
    var q, r := v / 256, v % 256;
    var a, b := q / p, q % p;
    assert v == 256 * (p * a + b) + r == 256 * p * a + (256 * b + r);
    Quotient(v, 256 * p, a, 256 * b + r);
  }

  /** Packing keeps the low bytes, and reading them gives the number modulo their range. */
  lemma {:induction false} BeRoundTrip(v: nat, n: nat)
    ensures Pow256(n) > 0 && FromBe(Be(v, n)) == v % Pow256(n)
    decreases n
  {
    Pow256Positive(n);
    if n > 0 {
      Pow256Positive(n - 1);
      BeRoundTrip(v / 256, n - 1);
      assert Be(v, n)[..n - 1] == Be(v / 256, n - 1);
      DivDiv(v, Pow256(n - 1));
    }
  }

  lemma Pow256Values()
    ensures Pow256(1) == 0x100 && Pow256(2) == 0x1_0000 && Pow256(4) == TWO_32 && Pow256(8) == TWO_64
  {
    assert Pow256(3) == 0x100_0000 && Pow256(5) == 0x100_0000_0000;
    assert Pow256(6) == 0x1_0000_0000_0000 && Pow256(7) == 0x100_0000_0000_0000;
  }

  // ---- packing ----

  function UintPacked(u: nat): seq<Byte> {
    if u <= 0x7f then [u]
    else if u <= 0xff then [0xcc] + Be(u, 1)
    else if u <= 0xffff then [0xcd] + Be(u, 2)
    else if u <= 0xffff_ffff then [0xce] + Be(u, 4)
    else [0xcf] + Be(u, 8)
  }

  // A signed integer cast to 64 unsigned bits.
  function Bits(i: int): nat { i % TWO_64 }

  // A negative integer is packed from the low bytes of its two's complement.
  function SintPacked(i: int): seq<Byte> {
    if i >= 0 then UintPacked(i)
    else if i >= -32 then [i + 0x100]
    else if i >= -128 then [0xd0] + Be(Bits(i), 1)
    else if i >= -32768 then [0xd1] + Be(Bits(i), 2)
    else if i >= -0x8000_0000 then [0xd2] + Be(Bits(i), 4)
    else [0xd3] + Be(Bits(i), 8)
  }

  function HeaderPacked(n: nat, fix: Byte, tag16: Byte, tag32: Byte): seq<Byte>
    requires fix + 15 < 256
  {
    if n <= 15 then [fix + n] else if n <= 0xffff then [tag16] + Be(n, 2) else [tag32] + Be(n, 4)
  }

  function StrPacked(s: seq<Byte>): seq<Byte> {
    var n := |s|;
    (if n <= 31 then [0xa0 + n]
     else if n <= 0xff then [0xd9] + Be(n, 1)
     else if n <= 0xffff then [0xda] + Be(n, 2)
     else [0xdb] + Be(n, 4)) + s
  }

  function Packed(v: Json): seq<Byte> {
    match v
    case Null => [0xc0]
    case Bool(b) => [if b then 0xc3 else 0xc2]
    case UInt(u) => UintPacked(u)
    case SInt(i) => SintPacked(i)
    case Real(bits) => [0xcb] + Be(bits, 8)
    case Str(s) => StrPacked(s)
    case Arr(elems) => HeaderPacked(|elems|, 0x90, 0xdc, 0xdd) + ElemsPacked(elems)
    case Obj(members) => HeaderPacked(|members|, 0x80, 0xde, 0xdf) + MembersPacked(members)
  }

  function ElemsPacked(elems: seq<Json>): seq<Byte> {
    if elems == [] then [] else Packed(elems[0]) + ElemsPacked(elems[1..])
  }

  function MembersPacked(members: seq<Member>): seq<Byte> {
    if members == [] then []
    else MemberPacked(members[0]) + MembersPacked(members[1..])
  }

  function MemberPacked(m: Member): seq<Byte> { StrPacked(m.key) + Packed(m.value) }

  // ---- unpacking ----

  // A value and the bytes after it, or None once the decoder's `ok` is false.
  type Parsed<T> = Option<(T, seq<Byte>)>

  function Sized(bs: seq<Byte>, n: nat): Parsed<nat> {
    if |bs| < n then None else Some((FromBe(bs[..n]), bs[n..]))
  }

  function StrAt(bs: seq<Byte>, n: nat): Parsed<Json> {
    if |bs| < n then None else Some((Str(bs[..n]), bs[n..]))
  }

  function Ascii(text: string): seq<Byte> {
    seq(|text|, i requires 0 <= i < |text| => text[i] as int % 256)
  }

  // Raw bytes become their base64 text.
  function BinAt(bs: seq<Byte>, n: nat): Parsed<Json> {
    if |bs| < n then None else Some((Str(Ascii(Base64.Encoded(bs[..n], false, true))), bs[n..]))
  }

  // An extension (a type byte and `n` bytes) is skipped and reads as null.
  function ExtAt(bs: seq<Byte>, n: nat): Parsed<Json> {
    if |bs| < n + 1 then None else Some((Null, bs[n + 1..]))
  }

  function Signed(v: nat, modulus: nat): int {
    if 2 * v < modulus then v else v - modulus
  }

  // The 64-bit pattern of a single-precision one: a cast from float to double.
  function Widened(bits: nat): nat {
    var sign, e, m := bits / 0x8000_0000, bits / 0x80_0000 % 256, bits % 0x80_0000;
    sign * TWO_63 +
    if e == 255 then 2047 * 0x10_0000_0000_0000 + m * 0x2000_0000
    else if e > 0 then (e + 896) * 0x10_0000_0000_0000 + m * 0x2000_0000
    else SubnormalWidened(m, 897)
  }

  function SubnormalWidened(m: nat, e: nat): nat
    requires m < 0x80_0000
    decreases if m == 0 then 0 else 0x80_0000 - m
  {
    if m == 0 || e == 0 then 0
    else if 2 * m >= 0x80_0000 then (e - 1) * 0x10_0000_0000_0000 + (2 * m - 0x80_0000) * 0x2000_0000
    else SubnormalWidened(2 * m, e - 1)
  }

  // A number of `n` bytes, read as unsigned, as signed, or as the size of what follows.
  function UIntAt(bs: seq<Byte>, n: nat): Parsed<Json> {
    var v := Sized(bs, n);
    if v.None? then None else Some((UInt(v.value.0), v.value.1))
  }

  function SIntAt(bs: seq<Byte>, n: nat, modulus: nat): Parsed<Json> {
    var v := Sized(bs, n);
    if v.None? then None else Some((SInt(Signed(v.value.0, modulus)), v.value.1))
  }

  function RealAt(bs: seq<Byte>, n: nat): Parsed<Json> {
    var v := Sized(bs, n);
    if v.None? then None else Some((Real(if n == 4 then Widened(v.value.0) else v.value.0), v.value.1))
  }

  datatype Kind = StrKind | BinKind | ExtKind

  function SizedAt(kind: Kind, bs: seq<Byte>, n: nat): Parsed<Json> {
    var size := Sized(bs, n);
    if size.None? then None
    else match kind
      case StrKind => StrAt(size.value.1, size.value.0)
      case BinKind => BinAt(size.value.1, size.value.0)
      case ExtKind => ExtAt(size.value.1, size.value.0)
  }

  function Scalar(t: Byte, r: seq<Byte>): Parsed<Json> {
    match t
    case 0xc0 => Some((Null, r))
    case 0xc2 => Some((Bool(false), r))
    case 0xc3 => Some((Bool(true), r))
    case 0xc4 => SizedAt(BinKind, r, 1)
    case 0xc5 => SizedAt(BinKind, r, 2)
    case 0xc6 => SizedAt(BinKind, r, 4)
    case 0xc7 => SizedAt(ExtKind, r, 1)
    case 0xc8 => SizedAt(ExtKind, r, 2)
    case 0xc9 => SizedAt(ExtKind, r, 4)
    case 0xca => RealAt(r, 4)
    case 0xcb => RealAt(r, 8)
    case 0xcc => UIntAt(r, 1)
    case 0xcd => UIntAt(r, 2)
    case 0xce => UIntAt(r, 4)
    case 0xcf => UIntAt(r, 8)
    case 0xd0 => SIntAt(r, 1, 0x100)
    case 0xd1 => SIntAt(r, 2, 0x1_0000)
    case 0xd2 => SIntAt(r, 4, TWO_32)
    case 0xd3 => SIntAt(r, 8, TWO_64)
    case 0xd4 => ExtAt(r, 1)
    case 0xd5 => ExtAt(r, 2)
    case 0xd6 => ExtAt(r, 4)
    case 0xd7 => ExtAt(r, 8)
    case 0xd8 => ExtAt(r, 16)
    case 0xd9 => SizedAt(StrKind, r, 1)
    case 0xda => SizedAt(StrKind, r, 2)
    case 0xdb => SizedAt(StrKind, r, 4)
    case _ => None
  }

  // `text` is how a key that is no string is written as one.
  function ValueAt(bs: seq<Byte>, depth: nat, text: Json -> seq<Byte>): Parsed<Json>
    requires depth <= MAX_DEPTH + 1
    decreases MAX_DEPTH + 1 - depth, 2, 0
  {
    if depth > MAX_DEPTH || bs == [] then None else Tagged(bs[0], bs[1..], depth, text)
  }

  function Tagged(t: Byte, r: seq<Byte>, depth: nat, text: Json -> seq<Byte>): Parsed<Json>
    requires depth <= MAX_DEPTH
    decreases MAX_DEPTH + 1 - depth, 1, 0
  {
    if t <= 0x7f then Some((UInt(t), r))
    else if t >= 0xe0 then Some((SInt(Signed(t, 0x100)), r))
    else if 0xa0 <= t <= 0xbf then StrAt(r, t - 0xa0)
    else if 0x90 <= t <= 0x9f then ArrAt(r, t - 0x90, depth, text)
    else if 0x80 <= t <= 0x8f then MapAt(r, t - 0x80, depth, text)
    else if 0xdc <= t <= 0xdf then
      var size := Sized(r, if t % 2 == 0 then 2 else 4);
      if size.None? then None
      else if t <= 0xdd then ArrAt(size.value.1, size.value.0, depth, text)
      else MapAt(size.value.1, size.value.0, depth, text)
    else Scalar(t, r)
  }

  function ArrAt(bs: seq<Byte>, n: nat, depth: nat, text: Json -> seq<Byte>): Parsed<Json>
    requires depth <= MAX_DEPTH
    decreases MAX_DEPTH + 1 - depth, 0, n + 1
  {
    var elems := ElemsAt(bs, n, depth, text);
    if elems.None? then None else Some((Arr(elems.value.0), elems.value.1))
  }

  function ElemsAt(bs: seq<Byte>, n: nat, depth: nat, text: Json -> seq<Byte>): Parsed<seq<Json>>
    requires depth <= MAX_DEPTH
    decreases MAX_DEPTH + 1 - depth, 0, n
  {
    if n == 0 then Some(([], bs))
    else
      var v := ValueAt(bs, depth + 1, text);
      if v.None? then None
      else
        var rest := ElemsAt(v.value.1, n - 1, depth, text);
        if rest.None? then None else Some(([v.value.0] + rest.value.0, rest.value.1))
  }

  function MapAt(bs: seq<Byte>, n: nat, depth: nat, text: Json -> seq<Byte>): Parsed<Json>
    requires depth <= MAX_DEPTH
    decreases MAX_DEPTH + 1 - depth, 0, n + 1
  {
    var members := MembersAt(bs, n, depth, text);
    if members.None? then None else Some((Obj(members.value.0), members.value.1))
  }

  function Key(k: Json, text: Json -> seq<Byte>): seq<Byte> { if k.Str? then k.s else text(k) }

  function MemberAt(bs: seq<Byte>, depth: nat, text: Json -> seq<Byte>): Parsed<Member>
    requires depth <= MAX_DEPTH
    decreases MAX_DEPTH + 1 - depth, 0, 0
  {
    var k := ValueAt(bs, depth + 1, text);
    if k.None? then None
    else
      var v := ValueAt(k.value.1, depth + 1, text);
      if v.None? then None else Some((Member(Key(k.value.0, text), v.value.0), v.value.1))
  }

  function MembersAt(bs: seq<Byte>, n: nat, depth: nat, text: Json -> seq<Byte>): Parsed<seq<Member>>
    requires depth <= MAX_DEPTH
    decreases MAX_DEPTH + 1 - depth, 0, n
  {
    if n == 0 then Some(([], bs))
    else
      var m := MemberAt(bs, depth, text);
      if m.None? then None
      else
        var rest := MembersAt(m.value.1, n - 1, depth, text);
        if rest.None? then None else Some(([m.value.0] + rest.value.0, rest.value.1))
  }

  /** The whole input must be one value. */
  function Unpacked(bs: seq<Byte>, text: Json -> seq<Byte>): Option<Json> {
    var v := ValueAt(bs, 0, text);
    if v.None? || v.value.1 != [] then None else Some(v.value.0)
  }

  // ---- the round trip ----

  // The ranges of the types yyjson holds, and lengths that the format's headers can carry.
  predicate Packable(v: Json) {
    match v
    case UInt(u) => u < TWO_64
    case SInt(i) => -TWO_63 <= i < TWO_63
    case Real(bits) => bits < TWO_64
    case Str(s) => |s| < TWO_32
    case Arr(elems) => |elems| < TWO_32 && forall e :: e in elems ==> Packable(e)
    case Obj(members) => |members| < TWO_32 && forall m :: m in members ==> |m.key| < TWO_32 && Packable(m.value)
    case _ => true
  }

  // How many containers with something in them are nested in `v`.
  function Height(v: Json): nat {
    match v
    case Arr(elems) => if elems == [] then 0 else 1 + HeightOfElems(elems)
    case Obj(members) => if members == [] then 0 else 1 + HeightOfMembers(members)
    case _ => 0
  }

  function HeightOfElems(elems: seq<Json>): nat {
    if elems == [] then 0 else Max(Height(elems[0]), HeightOfElems(elems[1..]))
  }

  function HeightOfMembers(members: seq<Member>): nat {
    if members == [] then 0 else Max(Height(members[0].value), HeightOfMembers(members[1..]))
  }

  // A non-negative integer comes back unsigned, whichever way it was held.
  function Norm(v: Json): Json {
    match v
    case SInt(i) => if i >= 0 then UInt(i) else v
    case Arr(elems) => Arr(seq(|elems|, i requires 0 <= i < |elems| => Norm(elems[i])))
    case Obj(members) =>
      Obj(seq(|members|, i requires 0 <= i < |members| => Member(members[i].key, Norm(members[i].value))))
    case _ => v
  }

  lemma SizedBe(v: nat, n: nat, rest: seq<Byte>)
    ensures Pow256(n) > 0 && Sized(Be(v, n) + rest, n) == Some((v % Pow256(n), rest))
    ensures v < Pow256(n) ==> v % Pow256(n) == v
  {
    BeRoundTrip(v, n);
    if v < Pow256(n) { Quotient(v, Pow256(n), 0, v); }
    assert (Be(v, n) + rest)[..n] == Be(v, n) && (Be(v, n) + rest)[n..] == rest;
  }

  lemma AfterTag(t: Byte, r: seq<Byte>, rest: seq<Byte>)
    ensures ([t] + r + rest)[0] == t && ([t] + r + rest)[1..] == r + rest
  {
  }

  // A tag with a fixed-size number after it.
  lemma TaggedNumber(t: Byte, v: nat, n: nat, rest: seq<Byte>, depth: nat, text: Json -> seq<Byte>)
    requires depth <= MAX_DEPTH
    ensures ValueAt([t] + Be(v, n) + rest, depth, text) == Tagged(t, Be(v, n) + rest, depth, text)
    ensures Pow256(n) > 0 && Sized(Be(v, n) + rest, n) == Some((v % Pow256(n), rest))
    ensures v < Pow256(n) ==> v % Pow256(n) == v
  {
    AfterTag(t, Be(v, n), rest);
    SizedBe(v, n, rest);
  }

  lemma TagAlone(t: Byte, rest: seq<Byte>, depth: nat, text: Json -> seq<Byte>)
    requires depth <= MAX_DEPTH
    ensures ValueAt([t] + rest, depth, text) == Tagged(t, rest, depth, text)
  {
    assert ([t] + rest)[1..] == rest;
  }

  lemma UintRoundTrip(u: nat, rest: seq<Byte>, depth: nat, text: Json -> seq<Byte>)
    requires u < TWO_64 && depth <= MAX_DEPTH
    ensures ValueAt(UintPacked(u) + rest, depth, text) == Some((UInt(u), rest))
  {
    Pow256Values();
    if u <= 0x7f {
      TagAlone(u, rest, depth, text);
    } else {
      var n := if u <= 0xff then 1 else if u <= 0xffff then 2 else if u <= 0xffff_ffff then 4 else 8;
      TaggedNumber(UintPacked(u)[0], u, n, rest, depth, text);
    }
  }

  lemma LowBytesOfNegative(i: int, n: nat)
    requires n in {1, 2, 4, 8} && i < 0 <= i + Pow256(n)
    ensures Bits(i) % Pow256(n) == i + Pow256(n)
  {
    Pow256Values();
    Quotient(i, TWO_64, -1, i + TWO_64);
    var k :=
      if n == 1 then 0x100_0000_0000_0000 else if n == 2 then 0x1_0000_0000_0000 else if n == 4 then TWO_32 else 1;
    Quotient(i + TWO_64, Pow256(n), k - 1, i + Pow256(n));
  }

  lemma SignedNumber(t: Byte, i: int, n: nat, rest: seq<Byte>, depth: nat, text: Json -> seq<Byte>)
    requires (t, n) in {(0xd0, 1), (0xd1, 2), (0xd2, 4), (0xd3, 8)}
    requires i < 0 <= 2 * i + Pow256(n) && depth <= MAX_DEPTH
    ensures ValueAt([t] + Be(Bits(i), n) + rest, depth, text) == Some((SInt(i), rest))
  {
    LowBytesOfNegative(i, n);
    TaggedNumber(t, Bits(i), n, rest, depth, text);
    SignedTag(t, n, Be(Bits(i), n) + rest, depth, text);
  }

  lemma SignedTag(t: Byte, n: nat, r: seq<Byte>, depth: nat, text: Json -> seq<Byte>)
    requires (t, n) in {(0xd0, 1), (0xd1, 2), (0xd2, 4), (0xd3, 8)} && depth <= MAX_DEPTH
    ensures Tagged(t, r, depth, text) == SIntAt(r, n, Pow256(n))
  {
    Pow256Values();
  }

  lemma SintRoundTrip(i: int, rest: seq<Byte>, depth: nat, text: Json -> seq<Byte>)
    requires -TWO_63 <= i < 0 && depth <= MAX_DEPTH
    ensures ValueAt(SintPacked(i) + rest, depth, text) == Some((SInt(i), rest))
  {
    Pow256Values();
    if i >= -32 {
      TagAlone(i + 0x100, rest, depth, text);
    } else if i >= -128 {
      SignedNumber(0xd0, i, 1, rest, depth, text);
    } else if i >= -32768 {
      SignedNumber(0xd1, i, 2, rest, depth, text);
    } else if i >= -0x8000_0000 {
      SignedNumber(0xd2, i, 4, rest, depth, text);
    } else {
      SignedNumber(0xd3, i, 8, rest, depth, text);
    }
  }

  lemma StrRoundTrip(s: seq<Byte>, rest: seq<Byte>, depth: nat, text: Json -> seq<Byte>)
    requires |s| < TWO_32 && depth <= MAX_DEPTH
    ensures ValueAt(StrPacked(s) + rest, depth, text) == Some((Str(s), rest))
  {
    Pow256Values();
    var size := |s|;
    var body := s + rest;
    assert body[..size] == s && body[size..] == rest;
    var t := StrPacked(s)[0];
    if size <= 31 {
      assert StrPacked(s) + rest == [t] + body;
      TagAlone(t, body, depth, text);
    } else {
      var n := if size <= 0xff then 1 else if size <= 0xffff then 2 else 4;
      assert StrPacked(s) + rest == [t] + Be(size, n) + body;
      TaggedNumber(t, size, n, body, depth, text);
    }
  }

  lemma HeaderRoundTrip(n: nat, rest: seq<Byte>, depth: nat, text: Json -> seq<Byte>)
    requires n < TWO_32 && depth <= MAX_DEPTH
    ensures ValueAt(HeaderPacked(n, 0x90, 0xdc, 0xdd) + rest, depth, text) == ArrAt(rest, n, depth, text)
    ensures ValueAt(HeaderPacked(n, 0x80, 0xde, 0xdf) + rest, depth, text) == MapAt(rest, n, depth, text)
  {
    Pow256Values();
    if n <= 15 {
      TagAlone(0x90 + n, rest, depth, text);
      TagAlone(0x80 + n, rest, depth, text);
    } else if n <= 0xffff {
      TaggedNumber(0xdc, n, 2, rest, depth, text);
      TaggedNumber(0xde, n, 2, rest, depth, text);
    } else {
      TaggedNumber(0xdd, n, 4, rest, depth, text);
      TaggedNumber(0xdf, n, 4, rest, depth, text);
    }
  }

  lemma ScalarRoundTrip(v: Json, rest: seq<Byte>, depth: nat, text: Json -> seq<Byte>)
    requires Packable(v) && depth <= MAX_DEPTH && !v.Arr? && !v.Obj?
    ensures ValueAt(Packed(v) + rest, depth, text) == Some((Norm(v), rest))
  {
    if v.UInt? || (v.SInt? && v.i >= 0) {
      UintRoundTrip(if v.UInt? then v.u else v.i, rest, depth, text);
    } else if v.SInt? {
      SintRoundTrip(v.i, rest, depth, text);
    } else if v.Real? {
      Pow256Values();
      TaggedNumber(0xcb, v.bits, 8, rest, depth, text);
    } else if v.Str? {
      StrRoundTrip(v.s, rest, depth, text);
    } else {
      TagAlone(Packed(v)[0], rest, depth, text);
    }
  }

  // A container reads back when its contents do.
  lemma ArrRoundTrip(elems: seq<Json>, rest: seq<Byte>, depth: nat, text: Json -> seq<Byte>)
    requires |elems| < TWO_32 && depth <= MAX_DEPTH
    ensures ValueAt(Packed(Arr(elems)) + rest, depth, text)
         == ArrAt(ElemsPacked(elems) + rest, |elems|, depth, text)
  {
    var header := HeaderPacked(|elems|, 0x90, 0xdc, 0xdd);
    HeaderRoundTrip(|elems|, ElemsPacked(elems) + rest, depth, text);
    Reassociate(header, ElemsPacked(elems), rest);
  }

  lemma ObjRoundTrip(members: seq<Member>, rest: seq<Byte>, depth: nat, text: Json -> seq<Byte>)
    requires |members| < TWO_32 && depth <= MAX_DEPTH
    ensures ValueAt(Packed(Obj(members)) + rest, depth, text)
         == MapAt(MembersPacked(members) + rest, |members|, depth, text)
  {
    var header := HeaderPacked(|members|, 0x80, 0xde, 0xdf);
    HeaderRoundTrip(|members|, MembersPacked(members) + rest, depth, text);
    Reassociate(header, MembersPacked(members), rest);
  }

  /**
   Decoding an encoding followed by any bytes gives the value back and consumes exactly the
   encoding, when the value is not nested too deep to be read at `depth`, and fails otherwise.
   */
  lemma {:induction false} ValueRoundTrip(v: Json, rest: seq<Byte>, depth: nat, text: Json -> seq<Byte>)
    requires Packable(v) && depth <= MAX_DEPTH + 1
    ensures ValueAt(Packed(v) + rest, depth, text)
         == if depth + Height(v) <= MAX_DEPTH then Some((Norm(v), rest)) else None
    decreases v, 1
  {
    if depth > MAX_DEPTH {
    } else if v.Arr? {
      ArrRoundTrip(v.elems, rest, depth, text);
      ElemsRoundTrip(v.elems, rest, depth, text);
    } else if v.Obj? {
      ObjRoundTrip(v.members, rest, depth, text);
      MembersRoundTrip(v.members, rest, depth, text);
    } else {
      ScalarRoundTrip(v, rest, depth, text);
    }
  }

  function NormElems(elems: seq<Json>): seq<Json> { Norm(Arr(elems)).elems }
  function NormMembers(members: seq<Member>): seq<Member> { Norm(Obj(members)).members }

  lemma {:induction false} ElemsRoundTrip(elems: seq<Json>, rest: seq<Byte>, depth: nat, text: Json -> seq<Byte>)
    requires depth <= MAX_DEPTH && forall e :: e in elems ==> Packable(e)
    ensures ElemsAt(ElemsPacked(elems) + rest, |elems|, depth, text)
         == if elems == [] || depth + 1 + HeightOfElems(elems) <= MAX_DEPTH
            then Some((NormElems(elems), rest)) else None
    decreases elems, 0
  {
    if elems == [] {
      assert ElemsPacked(elems) + rest == rest && NormElems(elems) == [];
    } else {
      var more := ElemsPacked(elems[1..]) + rest;
      Reassociate(Packed(elems[0]), ElemsPacked(elems[1..]), rest);
      assert elems[0] in elems;
      ValueRoundTrip(elems[0], more, depth + 1, text);
      ElemsRoundTrip(elems[1..], rest, depth, text);
      NormOfElems(elems);
    }
  }

  // One member: the key and the value are each read one level down.
  lemma {:induction false} MemberRoundTrip(m: Member, rest: seq<Byte>, depth: nat, text: Json -> seq<Byte>)
    requires depth <= MAX_DEPTH && |m.key| < TWO_32 && Packable(m.value)
    ensures MemberAt(MemberPacked(m) + rest, depth, text)
         == if depth + 1 + Height(m.value) <= MAX_DEPTH then Some((Member(m.key, Norm(m.value)), rest)) else None
    decreases m, 0
  {
    if depth < MAX_DEPTH {
      KeyReads(m, rest, depth, text);
      ValueRoundTrip(m.value, rest, depth + 1, text);
    } else {
      assert ValueAt(MemberPacked(m) + rest, depth + 1, text) == None;
    }
  }

  // With the key read, the member is as its value reads.
  lemma KeyReads(m: Member, rest: seq<Byte>, depth: nat, text: Json -> seq<Byte>)
    requires depth < MAX_DEPTH && |m.key| < TWO_32
    ensures MemberAt(MemberPacked(m) + rest, depth, text) ==
      var v := ValueAt(Packed(m.value) + rest, depth + 1, text);
      if v.None? then None else Some((Member(m.key, v.value.0), v.value.1))
  {
    Reassociate(StrPacked(m.key), Packed(m.value), rest);
    StrRoundTrip(m.key, Packed(m.value) + rest, depth + 1, text);
  }

  lemma {:induction false} MembersRoundTrip(members: seq<Member>, rest: seq<Byte>, depth: nat, text: Json -> seq<Byte>)
    requires depth <= MAX_DEPTH
    requires forall m :: m in members ==> |m.key| < TWO_32 && Packable(m.value)
    ensures MembersAt(MembersPacked(members) + rest, |members|, depth, text)
         == if members == [] || depth + 1 + HeightOfMembers(members) <= MAX_DEPTH
            then Some((NormMembers(members), rest)) else None
    decreases members, 0
  {
    if members == [] {
      assert MembersPacked(members) + rest == rest && NormMembers(members) == [];
    } else {
      var more := MembersPacked(members[1..]) + rest;
      Reassociate(MemberPacked(members[0]), MembersPacked(members[1..]), rest);
      assert members[0] in members;
      MemberRoundTrip(members[0], more, depth, text);
      MembersRoundTrip(members[1..], rest, depth, text);
      NormOfMembers(members);
    }
  }

  lemma NormOfMembers(members: seq<Member>)
    requires members != []
    ensures NormMembers(members) == [Member(members[0].key, Norm(members[0].value))] + NormMembers(members[1..])
  {
  }

  lemma NormOfElems(elems: seq<Json>)
    requires elems != []
    ensures NormElems(elems) == [Norm(elems[0])] + NormElems(elems[1..])
  {
  }

  /** fromMsgpack undoes toMsgpack exactly on the values nested at most 64 deep. */
  lemma RoundTrip(v: Json, text: Json -> seq<Byte>)
    requires Packable(v)
    ensures Unpacked(Packed(v), text) == if Height(v) <= MAX_DEPTH then Some(Norm(v)) else None
  {
    ValueRoundTrip(v, [], 0, text);
    assert Packed(v) + [] == Packed(v);
  }

  /** The decoder stops where an encoding ends: no encoding is a proper prefix of another's. */
  lemma EncodingsAreSelfDelimiting(v: Json, w: Json, r1: seq<Byte>, r2: seq<Byte>)
    requires Packable(v) && Packable(w) && Height(v) <= MAX_DEPTH && Height(w) <= MAX_DEPTH
    requires Packed(v) + r1 == Packed(w) + r2
    ensures Norm(v) == Norm(w) && r1 == r2
  {
    var text := (k: Json) => [];
    ValueRoundTrip(v, r1, 0, text);
    ValueRoundTrip(w, r2, 0, text);
  }

  // Integers as the JSON reader makes them: signed only when negative.
  predicate Canonical(v: Json) {
    match v
    case SInt(i) => i < 0
    case Arr(elems) => forall i :: 0 <= i < |elems| ==> Canonical(elems[i])
    case Obj(members) => forall i :: 0 <= i < |members| ==> Canonical(members[i].value)
    case _ => true
  }

  /** The value comes back unchanged exactly when its integers are held the way JSON text gives them. */
  lemma {:induction false} NormIsIdentityOnCanonical(v: Json)
    ensures Norm(v) == v <==> Canonical(v)
  {
    match v
    case Arr(elems) =>
      forall i | 0 <= i < |elems| ensures Norm(elems[i]) == elems[i] <==> Canonical(elems[i]) {
        NormIsIdentityOnCanonical(elems[i]);
      }
      if Norm(v) == v {
        assert forall i :: 0 <= i < |elems| ==> Norm(v).elems[i] == elems[i];
      }
      if Canonical(v) {
        assert Norm(v).elems == elems;
      }
    case Obj(members) =>
      forall i | 0 <= i < |members|
        ensures Norm(members[i].value) == members[i].value <==> Canonical(members[i].value)
      {
        NormIsIdentityOnCanonical(members[i].value);
      }
      if Norm(v) == v {
        assert forall i :: 0 <= i < |members| ==> Norm(v).members[i] == members[i];
      }
      if Canonical(v) {
        assert forall i :: 0 <= i < |members| ==> Norm(v).members[i] == members[i];
        assert Norm(v).members == members;
      }
    case _ =>
  }

  // ---- where the round trip fails ----

  // Numbers within the types yyjson holds; nothing is said about lengths.
  predicate Typed(v: Json) {
    match v
    case UInt(u) => u < TWO_64
    case SInt(i) => -TWO_63 <= i < TWO_63
    case Real(bits) => bits < TWO_64
    case Arr(elems) => forall e :: e in elems ==> Typed(e)
    case Obj(members) => forall m :: m in members ==> Typed(m.value)
    case _ => true
  }

  // Nothing was read, or something else.
  predicate Lost<T(==)>(r: Parsed<T>, v: T) { r.None? || r.value.0 != v }

  lemma {:induction false} ElemsCount(bs: seq<Byte>, n: nat, depth: nat, text: Json -> seq<Byte>)
    requires depth <= MAX_DEPTH
    ensures var r := ElemsAt(bs, n, depth, text); r.Some? ==> |r.value.0| == n
    decreases n
  {
    if n > 0 {
      var v := ValueAt(bs, depth + 1, text);
      if v.Some? { ElemsCount(v.value.1, n - 1, depth, text); }
    }
  }

  lemma {:induction false} MembersCount(bs: seq<Byte>, n: nat, depth: nat, text: Json -> seq<Byte>)
    requires depth <= MAX_DEPTH
    ensures var r := MembersAt(bs, n, depth, text); r.Some? ==> |r.value.0| == n
    decreases n
  {
    if n > 0 {
      var m := MemberAt(bs, depth, text);
      if m.Some? { MembersCount(m.value.1, n - 1, depth, text); }
    }
  }

  // The header holds a length modulo 2^32.
  lemma LongStrIsLost(s: seq<Byte>, rest: seq<Byte>, depth: nat, text: Json -> seq<Byte>)
    requires |s| >= TWO_32 && depth <= MAX_DEPTH
    ensures var r := ValueAt(StrPacked(s) + rest, depth, text); r.Some? ==> r.value.0.Str? && |r.value.0.s| < TWO_32
  {
    Pow256Values();
    assert StrPacked(s) + rest == [0xdb] + Be(|s|, 4) + (s + rest);
    TaggedNumber(0xdb, |s|, 4, s + rest, depth, text);
  }

  lemma LongHeaderIsLost(n: nat, rest: seq<Byte>, depth: nat, text: Json -> seq<Byte>)
    requires n >= TWO_32 && depth <= MAX_DEPTH
    ensures var r := ValueAt(HeaderPacked(n, 0x90, 0xdc, 0xdd) + rest, depth, text);
      r.Some? ==> r.value.0.Arr? && |r.value.0.elems| < TWO_32
    ensures var r := ValueAt(HeaderPacked(n, 0x80, 0xde, 0xdf) + rest, depth, text);
      r.Some? ==> r.value.0.Obj? && |r.value.0.members| < TWO_32
  {
    Pow256Values();
    TaggedNumber(0xdd, n, 4, rest, depth, text);
    TaggedNumber(0xdf, n, 4, rest, depth, text);
    ElemsCount(rest, n % TWO_32, depth, text);
    MembersCount(rest, n % TWO_32, depth, text);
  }

  lemma OneMore<T>(x: T, a: seq<T>, y: T, b: seq<T>)
    ensures [x] + a == [y] + b <==> x == y && a == b
  {
    assert ([x] + a)[0] == x && ([x] + a)[1..] == a;
    assert ([y] + b)[0] == y && ([y] + b)[1..] == b;
  }

  lemma ElemsLostIf(bs: seq<Byte>, n: nat, depth: nat, text: Json -> seq<Byte>, first: Json, others: seq<Json>)
    requires depth <= MAX_DEPTH && n > 0
    requires var v := ValueAt(bs, depth + 1, text);
      Lost(v, first) || Lost(ElemsAt(v.value.1, n - 1, depth, text), others)
    ensures Lost(ElemsAt(bs, n, depth, text), [first] + others)
  {
    var v := ValueAt(bs, depth + 1, text);
    if v.Some? {
      var rest := ElemsAt(v.value.1, n - 1, depth, text);
      if rest.Some? { OneMore(v.value.0, rest.value.0, first, others); }
    }
  }

  lemma MembersLostIf(bs: seq<Byte>, n: nat, depth: nat, text: Json -> seq<Byte>, first: Member, others: seq<Member>)
    requires depth <= MAX_DEPTH && n > 0
    requires var m := MemberAt(bs, depth, text);
      Lost(m, first) || Lost(MembersAt(m.value.1, n - 1, depth, text), others)
    ensures Lost(MembersAt(bs, n, depth, text), [first] + others)
  {
    var m := MemberAt(bs, depth, text);
    if m.Some? {
      var rest := MembersAt(m.value.1, n - 1, depth, text);
      if rest.Some? { OneMore(m.value.0, rest.value.0, first, others); }
    }
  }

  /** A value with a length of 2^32 or more, however deep inside, does not come back. */
  lemma {:induction false} LongIsLost(v: Json, rest: seq<Byte>, depth: nat, text: Json -> seq<Byte>)
    requires Typed(v) && !Packable(v) && depth <= MAX_DEPTH + 1
    ensures Lost(ValueAt(Packed(v) + rest, depth, text), Norm(v))
    decreases v, 1
  {
    if depth <= MAX_DEPTH {
      if v.Str? {
        LongStrIsLost(v.s, rest, depth, text);
      } else if v.Arr? {
        LongArrIsLost(v.elems, rest, depth, text);
      } else {
        LongObjIsLost(v.members, rest, depth, text);
      }
    }
  }

  lemma {:induction false} LongArrIsLost(elems: seq<Json>, rest: seq<Byte>, depth: nat, text: Json -> seq<Byte>)
    requires Typed(Arr(elems)) && !Packable(Arr(elems)) && depth <= MAX_DEPTH
    ensures Lost(ValueAt(Packed(Arr(elems)) + rest, depth, text), Norm(Arr(elems)))
    decreases elems, 1
  {
    if |elems| >= TWO_32 {
      Reassociate(HeaderPacked(|elems|, 0x90, 0xdc, 0xdd), ElemsPacked(elems), rest);
      LongHeaderIsLost(|elems|, ElemsPacked(elems) + rest, depth, text);
    } else {
      ArrRoundTrip(elems, rest, depth, text);
      LongElemIsLost(elems, rest, depth, text);
    }
  }

  lemma {:induction false} LongElemIsLost(elems: seq<Json>, rest: seq<Byte>, depth: nat, text: Json -> seq<Byte>)
    requires depth <= MAX_DEPTH && (forall e :: e in elems ==> Typed(e)) && exists e :: e in elems && !Packable(e)
    ensures Lost(ElemsAt(ElemsPacked(elems) + rest, |elems|, depth, text), NormElems(elems))
    decreases elems, 0
  {
    var first, others, bs := elems[0], elems[1..], ElemsPacked(elems) + rest;
    var more := ElemsPacked(others) + rest;
    assert bs == Packed(first) + more by { Reassociate(Packed(first), ElemsPacked(others), rest); }
    assert first in elems;
    if Packable(first) {
      ValueRoundTrip(first, more, depth + 1, text);
      assert elems == [first] + others;
      LongElemIsLost(others, rest, depth, text);
    } else {
      LongIsLost(first, more, depth + 1, text);
    }
    ElemsLostIf(bs, |elems|, depth, text, Norm(first), NormElems(others));
    NormOfElems(elems);
  }

  lemma {:induction false} LongObjIsLost(members: seq<Member>, rest: seq<Byte>, depth: nat, text: Json -> seq<Byte>)
    requires Typed(Obj(members)) && !Packable(Obj(members)) && depth <= MAX_DEPTH
    ensures Lost(ValueAt(Packed(Obj(members)) + rest, depth, text), Norm(Obj(members)))
    decreases members, 1
  {
    if |members| >= TWO_32 {
      Reassociate(HeaderPacked(|members|, 0x80, 0xde, 0xdf), MembersPacked(members), rest);
      LongHeaderIsLost(|members|, MembersPacked(members) + rest, depth, text);
    } else {
      ObjRoundTrip(members, rest, depth, text);
      LongMemberIsLost(members, rest, depth, text);
    }
  }

  predicate PackableMember(m: Member) { |m.key| < TWO_32 && Packable(m.value) }

  lemma {:induction false} LongMemberIsLost(members: seq<Member>, rest: seq<Byte>, depth: nat, text: Json -> seq<Byte>)
    requires depth <= MAX_DEPTH && (forall m :: m in members ==> Typed(m.value))
    requires exists m :: m in members && !PackableMember(m)
    ensures Lost(MembersAt(MembersPacked(members) + rest, |members|, depth, text), NormMembers(members))
    decreases members, 0
  {
    var m, more := members[0], MembersPacked(members[1..]) + rest;
    Reassociate(MemberPacked(m), MembersPacked(members[1..]), rest);
    assert m in members;
    NormOfMembers(members);
    if PackableMember(m) {
      MemberRoundTrip(m, more, depth, text);
      LongMemberIsLost(members[1..], rest, depth, text);
    } else {
      LongInMemberIsLost(m, more, depth, text);
    }
    MembersLostIf(MembersPacked(members) + rest, |members|, depth, text,
      Member(m.key, Norm(m.value)), NormMembers(members[1..]));
  }

  lemma {:induction false} LongInMemberIsLost(m: Member, rest: seq<Byte>, depth: nat, text: Json -> seq<Byte>)
    requires depth <= MAX_DEPTH && Typed(m.value) && !PackableMember(m)
    ensures Lost(MemberAt(MemberPacked(m) + rest, depth, text), Member(m.key, Norm(m.value)))
    decreases m, 0
  {
    Reassociate(StrPacked(m.key), Packed(m.value), rest);
    if depth < MAX_DEPTH {
      if |m.key| >= TWO_32 {
        LongStrIsLost(m.key, Packed(m.value) + rest, depth + 1, text);
      } else {
        LongIsLost(m.value, rest, depth + 1, text);
        KeyReads(m, rest, depth, text);
      }
    }
  }

  /**
   A value comes back, integers in canonical form, if and only if every length in it is below 2^32
   and it is nested at most 64 deep.
   */
  lemma ComesBackIff(v: Json, text: Json -> seq<Byte>)
    requires Typed(v)
    ensures Unpacked(Packed(v), text) == Some(Norm(v)) <==> Packable(v) && Height(v) <= MAX_DEPTH
  {
    assert Packed(v) + [] == Packed(v);
    if Packable(v) {
      ValueRoundTrip(v, [], 0, text);
    } else {
      LongIsLost(v, [], 0, text);
    }
  }

  // ---- the encoder and the decoder ----

  lemma {:induction false} BeAt(v: nat, n: nat, j: nat)
    requires j < n
    ensures Pow256(n - 1 - j) > 0 && Be(v, n)[j] == v / Pow256(n - 1 - j) % 256
    decreases n
  {
    Pow256Positive(n - 1 - j);
    if j < n - 1 {
      Pow256Positive(n - 2 - j);
      BeAt(v / 256, n - 1, j);
      DivDiv(v, Pow256(n - 2 - j));
    }
  }

  // Items already read, then the ones still to read.
  function Prefixed<T>(done: seq<T>, more: Parsed<seq<T>>): Parsed<seq<T>> {
    if more.None? then None else Some((done + more.value.0, more.value.1))
  }

  lemma PrefixedNone<T>(more: Parsed<seq<T>>)
    ensures Prefixed([], more) == more
  {
    assert more.Some? ==> [] + more.value.0 == more.value.0;
  }

  lemma PrefixedOne<T>(done: seq<T>, x: T, more: Parsed<seq<T>>)
    ensures Prefixed(done, Prefixed([x], more)) == Prefixed(done + [x], more)
  {
    assert more.Some? ==> done + ([x] + more.value.0) == done + [x] + more.value.0;
  }

  class Packer {
    var out: seq<Byte>

    constructor ()
      ensures out == []
    {
      out := [];
    }

    method PackBe(v: nat, bytes: nat)
      modifies this
      ensures out == old(out) + Be(v, bytes)
    {
      var i := bytes;
      while i > 0
        invariant 0 <= i <= bytes
        invariant out == old(out) + Be(v, bytes)[..bytes - i]
      {
        i := i - 1;
        BeAt(v, bytes, bytes - 1 - i);
        out := out + [v / Pow256(i) % 256];
      }
    }

    method PackTagged(t: Byte, v: nat, bytes: nat)
      modifies this
      ensures out == old(out) + ([t] + Be(v, bytes))
    {
      out := out + [t];
      PackBe(v, bytes);
    }

    method PackUint(u: nat)
      modifies this
      ensures out == old(out) + UintPacked(u)
    {
      if u <= 0x7f {
        out := out + [u];
      } else if u <= 0xff {
        PackTagged(0xcc, u, 1);
      } else if u <= 0xffff {
        PackTagged(0xcd, u, 2);
      } else if u <= 0xffff_ffff {
        PackTagged(0xce, u, 4);
      } else {
        PackTagged(0xcf, u, 8);
      }
    }

    method PackSint(i: int)
      modifies this
      ensures out == old(out) + SintPacked(i)
    {
      if i >= 0 {
        PackUint(i);
        return;
      }
      var bits := Bits(i);
      if i >= -32 {
        out := out + [i + 0x100];
      } else if i >= -128 {
        PackTagged(0xd0, bits, 1);
      } else if i >= -32768 {
        PackTagged(0xd1, bits, 2);
      } else if i >= -0x8000_0000 {
        PackTagged(0xd2, bits, 4);
      } else {
        PackTagged(0xd3, bits, 8);
      }
    }

    method PackHeader(n: nat, fix: Byte, tag16: Byte, tag32: Byte)
      requires fix + 15 < 256
      modifies this
      ensures out == old(out) + HeaderPacked(n, fix, tag16, tag32)
    {
      if n <= 15 {
        out := out + [fix + n];
      } else if n <= 0xffff {
        PackTagged(tag16, n, 2);
      } else {
        PackTagged(tag32, n, 4);
      }
    }

    method PackStr(s: seq<Byte>)
      modifies this
      ensures out == old(out) + StrPacked(s)
    {
      var n := |s|;
      if n <= 31 {
        out := out + [0xa0 + n];
      } else if n <= 0xff {
        PackTagged(0xd9, n, 1);
      } else if n <= 0xffff {
        PackTagged(0xda, n, 2);
      } else {
        PackTagged(0xdb, n, 4);
      }
      out := out + s;
    }

    method PackVal(v: Json)
      modifies this
      ensures out == old(out) + Packed(v)
      decreases v, 1
    {
      match v {
        case Null => out := out + [0xc0];
        case Bool(b) => out := out + [if b then 0xc3 else 0xc2];
        case UInt(u) => PackUint(u);
        case SInt(i) => PackSint(i);
        case Real(bits) =>
          PackTagged(0xcb, bits, 8);
        case Str(s) => PackStr(s);
        case Arr(elems) => PackArr(elems);
        case Obj(members) => PackObj(members);
      }
    }

    method PackArr(elems: seq<Json>)
      modifies this
      ensures out == old(out) + Packed(Arr(elems))
      decreases elems, 1
    {
      PackHeader(|elems|, 0x90, 0xdc, 0xdd);
      PackElems(elems);
      Reassociate(old(out), HeaderPacked(|elems|, 0x90, 0xdc, 0xdd), ElemsPacked(elems));
    }

    method PackObj(members: seq<Member>)
      modifies this
      ensures out == old(out) + Packed(Obj(members))
      decreases members, 1
    {
      PackHeader(|members|, 0x80, 0xde, 0xdf);
      PackMembers(members);
      Reassociate(old(out), HeaderPacked(|members|, 0x80, 0xde, 0xdf), MembersPacked(members));
    }

    method PackElems(elems: seq<Json>)
      modifies this
      ensures out == old(out) + ElemsPacked(elems)
      decreases elems, 0
    {
      for i := 0 to |elems|
        invariant out + ElemsPacked(elems[i..]) == old(out) + ElemsPacked(elems)
      {
        assert elems[i..][1..] == elems[i + 1..];
        ghost var before, more := out, ElemsPacked(elems[i + 1..]);
        PackVal(elems[i]);
        Reassociate(before, Packed(elems[i]), more);
      }
    }

    method PackMembers(members: seq<Member>)
      modifies this
      ensures out == old(out) + MembersPacked(members)
      decreases members, 0
    {
      for i := 0 to |members|
        invariant out + MembersPacked(members[i..]) == old(out) + MembersPacked(members)
      {
        assert members[i..][1..] == members[i + 1..];
        ghost var before, more := out, MembersPacked(members[i + 1..]);
        PackMember(members[i]);
        Reassociate(before, MemberPacked(members[i]), more);
      }
    }

    method PackMember(m: Member)
      modifies this
      ensures out == old(out) + MemberPacked(m)
      decreases m, 0
    {
      PackStr(m.key);
      PackVal(m.value);
      Reassociate(old(out), StrPacked(m.key), Packed(m.value));
    }
  }

  class Unpacker {
    const data: seq<Byte>
    var p: nat
    var ok: bool

    ghost predicate Valid()
      reads this
    {
      p <= |data|
    }

    // What is left to read.
    ghost function Left(): seq<Byte>
      requires Valid()
      reads this
    {
      data[p..]
    }

    // The cursor and the flag after a step that should have parsed `r`.
    ghost predicate Reached<T(!new)>(r: Parsed<T>)
      reads this
    {
      Valid() && (ok <==> r.Some?) && (ok ==> Left() == r.value.1)
    }

    constructor (data: seq<Byte>)
      ensures Valid() && ok && this.data == data && p == 0
    {
      this.data := data;
      p, ok := 0, true;
    }

    method Need(n: nat) returns (enough: bool)
      requires Valid()
      modifies `ok
      ensures Valid() && enough == ok
      ensures ok <==> old(ok) && |Left()| >= n
    {
      if |data| - p < n {
        ok := false;
      }
      return ok;
    }

    method ReadBe(bytes: nat) returns (v: nat)
      requires Valid() && |Left()| >= bytes
      modifies `p
      ensures Valid() && v == FromBe(old(Left())[..bytes]) && Left() == old(Left())[bytes..]
    {
      v := 0;
      var start := p;
      for i := 0 to bytes
        invariant p == start + i <= |data|
        invariant v == FromBe(data[start..p])
      {
        assert data[start..p + 1][..i] == data[start..p];
        v := v * 256 + data[p];
        p := p + 1;
      }
      assert old(Left())[..bytes] == data[start..p];
    }

    method SizedNumber(bytes: nat) returns (v: nat)
      requires Valid()
      modifies this
      ensures old(ok) ==> Reached(Sized(old(Left()), bytes))
      ensures old(ok) && ok ==> v == Sized(old(Left()), bytes).value.0
      ensures Valid() && (ok ==> old(ok))
    {
      v := 0;
      var enough := Need(bytes);
      if enough {
        v := ReadBe(bytes);
      }
    }

    method ReadStr(n: nat) returns (v: Option<Json>)
      requires Valid() && ok
      modifies this
      ensures Reached(StrAt(old(Left()), n)) && (ok ==> v == Some(StrAt(old(Left()), n).value.0))
    {
      var enough := Need(n);
      if !enough {
        return None;
      }
      assert Left()[..n] == data[p..p + n];
      v := Some(Str(data[p..p + n]));
      p := p + n;
    }

    method ReadBin(n: nat) returns (v: Option<Json>)
      requires Valid() && ok
      modifies this
      ensures Reached(BinAt(old(Left()), n)) && (ok ==> v == Some(BinAt(old(Left()), n).value.0))
    {
      var enough := Need(n);
      if !enough {
        return None;
      }
      assert Left()[..n] == data[p..p + n];
      v := Some(Str(Ascii(Base64.Encoded(data[p..p + n], false, true))));
      p := p + n;
    }

    method SkipExt(n: nat) returns (v: Option<Json>)
      requires Valid() && ok
      modifies this
      ensures Reached(ExtAt(old(Left()), n)) && (ok ==> v == Some(Null))
    {
      var enough := Need(n + 1);
      if !enough {
        return None;
      }
      p := p + n + 1;
      v := Some(Null);
    }

    method ReadSized(kind: Kind, bytes: nat) returns (v: Option<Json>)
      requires Valid() && ok
      modifies this
      ensures Reached(SizedAt(kind, old(Left()), bytes))
      ensures ok ==> v == Some(SizedAt(kind, old(Left()), bytes).value.0)
    {
      var n := SizedNumber(bytes);
      if !ok {
        return None;
      }
      match kind {
        case StrKind => v := ReadStr(n);
        case BinKind => v := ReadBin(n);
        case ExtKind => v := SkipExt(n);
      }
    }

    method ReadNumber(t: Byte, bytes: nat) returns (v: Option<Json>)
      requires Valid() && ok && 0xca <= t <= 0xd3
      requires bytes ==
        if t in {0xcc, 0xd0} then 1 else if t in {0xcd, 0xd1} then 2 else if t in {0xca, 0xce, 0xd2} then 4 else 8
      modifies this
      ensures Reached(Scalar(t, old(Left())))
      ensures ok ==> v == Some(Scalar(t, old(Left())).value.0)
    {
      var n := SizedNumber(bytes);
      if !ok {
        return None;
      }
      if t == 0xca {
        v := Some(Real(Widened(n)));
      } else if t == 0xcb {
        v := Some(Real(n));
      } else if t <= 0xcf {
        v := Some(UInt(n));
      } else {
        var span := if t == 0xd0 then 0x100 else if t == 0xd1 then 0x1_0000 else if t == 0xd2 then TWO_32 else TWO_64;
        v := Some(SInt(Signed(n, span)));
      }
    }

    method ReadScalar(t: Byte) returns (v: Option<Json>)
      requires Valid() && ok
      modifies this
      ensures Reached(Scalar(t, old(Left())))
      ensures ok ==> v == Some(Scalar(t, old(Left())).value.0)
    {
      match t {
        case 0xc0 => v := Some(Null);
        case 0xc2 => v := Some(Bool(false));
        case 0xc3 => v := Some(Bool(true));
        case 0xc4 => v := ReadSized(BinKind, 1);
        case 0xc5 => v := ReadSized(BinKind, 2);
        case 0xc6 => v := ReadSized(BinKind, 4);
        case 0xc7 => v := ReadSized(ExtKind, 1);
        case 0xc8 => v := ReadSized(ExtKind, 2);
        case 0xc9 => v := ReadSized(ExtKind, 4);
        case 0xca | 0xce | 0xd2 => v := ReadNumber(t, 4);
        case 0xcb | 0xcf | 0xd3 => v := ReadNumber(t, 8);
        case 0xcc | 0xd0 => v := ReadNumber(t, 1);
        case 0xcd | 0xd1 => v := ReadNumber(t, 2);
        case 0xd4 => v := SkipExt(1);
        case 0xd5 => v := SkipExt(2);
        case 0xd6 => v := SkipExt(4);
        case 0xd7 => v := SkipExt(8);
        case 0xd8 => v := SkipExt(16);
        case 0xd9 => v := ReadSized(StrKind, 1);
        case 0xda => v := ReadSized(StrKind, 2);
        case 0xdb => v := ReadSized(StrKind, 4);
        case _ =>
          ok := false;
          v := None;
      }
    }

    method ReadArr(n: nat, depth: nat, text: Json -> seq<Byte>) returns (v: Option<Json>)
      requires Valid() && ok && depth <= MAX_DEPTH
      modifies this
      ensures Reached(ArrAt(old(Left()), n, depth, text))
      ensures ok ==> v == Some(ArrAt(old(Left()), n, depth, text).value.0)
      decreases MAX_DEPTH + 1 - depth, 0
    {
      var elems: seq<Json> := [];
      ghost var whole := ElemsAt(Left(), n, depth, text);
      PrefixedNone(whole);
      var i := 0;
      while i < n && ok
        invariant 0 <= i <= n && Valid()
        invariant ok ==> whole == Prefixed(elems, ElemsAt(Left(), n - i, depth, text))
        invariant !ok ==> whole.None?
        decreases n - i
      {
        var e := ReadValue(depth + 1, text);
        if e.Some? {
          PrefixedOne(elems, e.value, ElemsAt(Left(), n - i - 1, depth, text));
          elems := elems + [e.value];
        }
        i := i + 1;
      }
      assert ok ==> whole == Some((elems + [], Left()));
      assert elems + [] == elems;
      v := Some(Arr(elems));
    }

    method ReadMember(depth: nat, text: Json -> seq<Byte>) returns (m: Option<Member>)
      requires Valid() && ok && depth <= MAX_DEPTH
      modifies this
      ensures Reached(MemberAt(old(Left()), depth, text)) && (m.Some? <==> ok)
      ensures ok ==> m == Some(MemberAt(old(Left()), depth, text).value.0)
      decreases MAX_DEPTH + 1 - depth, 0, 0
    {
      var k := ReadValue(depth + 1, text);
      var v := ReadValue(depth + 1, text);
      if !ok || k.None? || v.None? {
        return None;
      }
      m := Some(Member(Key(k.value, text), v.value));
    }

    method ReadMap(n: nat, depth: nat, text: Json -> seq<Byte>) returns (v: Option<Json>)
      requires Valid() && ok && depth <= MAX_DEPTH
      modifies this
      ensures Reached(MapAt(old(Left()), n, depth, text))
      ensures ok ==> v == Some(MapAt(old(Left()), n, depth, text).value.0)
      decreases MAX_DEPTH + 1 - depth, 0
    {
      var members: seq<Member> := [];
      ghost var whole := MembersAt(Left(), n, depth, text);
      PrefixedNone(whole);
      var i := 0;
      while i < n && ok
        invariant 0 <= i <= n && Valid()
        invariant ok ==> whole == Prefixed(members, MembersAt(Left(), n - i, depth, text))
        invariant !ok ==> whole.None?
        decreases n - i
      {
        var m := ReadMember(depth, text);
        if m.None? {
          break;
        }
        PrefixedOne(members, m.value, MembersAt(Left(), n - i - 1, depth, text));
        members := members + [m.value];
        i := i + 1;
      }
      assert ok ==> whole == Some((members + [], Left()));
      assert members + [] == members;
      v := Some(Obj(members));
    }

    method ReadValue(depth: nat, text: Json -> seq<Byte>) returns (v: Option<Json>)
      requires Valid() && depth <= MAX_DEPTH + 1
      modifies this
      ensures Valid() && (!old(ok) ==> !ok && v == None)
      ensures old(ok) ==> Reached(ValueAt(old(Left()), depth, text))
      ensures old(ok) && ok ==> v == Some(ValueAt(old(Left()), depth, text).value.0)
      decreases MAX_DEPTH + 1 - depth, 1
    {
      var enough := false;
      if depth <= MAX_DEPTH {
        enough := Need(1);
      }
      if !enough {
        ok := false;
        return None;
      }
      var t := data[p];
      p := p + 1;
      assert old(Left())[1..] == Left();
      if t <= 0x7f {
        v := Some(UInt(t));
      } else if t >= 0xe0 {
        v := Some(SInt(Signed(t, 0x100)));
      } else if 0xa0 <= t <= 0xbf {
        v := ReadStr(t - 0xa0);
      } else if 0x90 <= t <= 0x9f {
        v := ReadArr(t - 0x90, depth, text);
      } else if 0x80 <= t <= 0x8f {
        v := ReadMap(t - 0x80, depth, text);
      } else if 0xdc <= t <= 0xdf {
        v := ReadContainer(t, depth, text);
      } else {
        v := ReadScalar(t);
      }
    }

    // An array or a map whose size follows its tag.
    method ReadContainer(t: Byte, depth: nat, text: Json -> seq<Byte>) returns (v: Option<Json>)
      requires Valid() && ok && depth <= MAX_DEPTH && 0xdc <= t <= 0xdf
      modifies this
      ensures Reached(Tagged(t, old(Left()), depth, text))
      ensures ok ==> v == Some(Tagged(t, old(Left()), depth, text).value.0)
      decreases MAX_DEPTH + 1 - depth, 1, 0
    {
      var n := SizedNumber(if t % 2 == 0 then 2 else 4);
      if !ok {
        return None;
      }
      if t <= 0xdd {
        v := ReadArr(n, depth, text);
      } else {
        v := ReadMap(n, depth, text);
      }
    }
  }

  method FromMsgpack(bytes: seq<Byte>, text: Json -> seq<Byte>) returns (v: Option<Json>)
    ensures v == Unpacked(bytes, text)
  {
    var u := new Unpacker(bytes);
    var root := u.ReadValue(0, text);
    if !u.ok || root.None? || u.p != |bytes| {
      return None;
    }
    return root;
  }

  method ToMsgpack(v: Json) returns (bytes: seq<Byte>)
    ensures bytes == Packed(v)
  {
    var packer := new Packer();
    packer.PackVal(v);
    bytes := packer.out;
  }
}
