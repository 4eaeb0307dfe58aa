/**
 UTF-8: the value-based validator of src/graphql/subscription_client.cpp, the lead- and second-byte
 validator, the sanitiser and the truncation of src/studio/diagnostics.cpp, against the grammar in
 section 4 of RFC 3629.

 Bytes are numbers: masking with 0x1f, 0x0f, 0x07 or 0x3f is the remainder by 32, 16, 8 or 64, a
 shift by 6 is a product with 64, and (b & 0xc0) == 0x80 says that b is in 0x80..0xbf.
 */
module Utf8 {
  import opened Bytes
  import opened Sequences

  // ---- the grammar ----

  predicate Tail(b: Byte) { 0x80 <= b <= 0xbf }

  // The UTF8-2, UTF8-3 and UTF8-4 productions.
  predicate Is2(a: Byte, b: Byte) { 0xc2 <= a <= 0xdf && Tail(b) }

  predicate Is3(a: Byte, b: Byte, c: Byte) {
    || (a == 0xe0 && 0xa0 <= b <= 0xbf && Tail(c))
    || (0xe1 <= a <= 0xec && Tail(b) && Tail(c))
    || (a == 0xed && 0x80 <= b <= 0x9f && Tail(c))
    || (0xee <= a <= 0xef && Tail(b) && Tail(c))
  }

  predicate Is4(a: Byte, b: Byte, c: Byte, d: Byte) {
    || (a == 0xf0 && 0x90 <= b <= 0xbf && Tail(c) && Tail(d))
    || (0xf1 <= a <= 0xf3 && Tail(b) && Tail(c) && Tail(d))
    || (a == 0xf4 && 0x80 <= b <= 0x8f && Tail(c) && Tail(d))
  }

  /** The UTF8-char production. */
  predicate IsChar(c: seq<Byte>) {
    match |c|
    case 1 => c[0] <= 0x7f
    case 2 => Is2(c[0], c[1])
    case 3 => Is3(c[0], c[1], c[2])
    case 4 => Is4(c[0], c[1], c[2], c[3])
    case _ => false
  }

  function Joined(chars: seq<seq<Byte>>): seq<Byte> {
    if chars == [] then [] else chars[0] + Joined(chars[1..])
  }

  /** The UTF8-octets production: characters one after the other. */
  ghost predicate IsUtf8(s: seq<Byte>) {
    exists chars: seq<seq<Byte>> :: (forall i :: 0 <= i < |chars| ==> IsChar(chars[i])) && Joined(chars) == s
  }

  // ---- lengths ----

  /** How long a character starting with `b` is, or 0 if none does. */
  function Length(b: Byte): nat {
    if b <= 0x7f then 1
    else if 0xc2 <= b <= 0xdf then 2
    else if 0xe0 <= b <= 0xef then 3
    else if 0xf0 <= b <= 0xf4 then 4
    else 0
  }

  // Whether a character starts at the beginning of `s`.
  predicate Starts(s: seq<Byte>) {
    && s != [] && 0 < Length(s[0]) <= |s|
    && (Length(s[0]) == 2 ==> Is2(s[0], s[1]))
    && (Length(s[0]) == 3 ==> Is3(s[0], s[1], s[2]))
    && (Length(s[0]) == 4 ==> Is4(s[0], s[1], s[2], s[3]))
  }

  lemma StartsWithChar(s: seq<Byte>)
    ensures Starts(s) <==> s != [] && 0 < Length(s[0]) <= |s| && IsChar(s[..Length(s[0])])
  {
  }

  // Reading from the left: the first byte settles how long a character is, so there is one way to do it.
  predicate Reads(s: seq<Byte>)
    decreases |s|
  {
    s == [] || (Starts(s) && Reads(s[Length(s[0])..]))
  }

  lemma {:induction false} Cancel(a: seq<Byte>, b: seq<Byte>)
    requires Reads(a)
    ensures Reads(a + b) <==> Reads(b)
    decreases |a|
  {
    if a == [] {
      assert a + b == b;
    } else {
      var n := Length(a[0]);
      assert (a + b)[n..] == a[n..] + b;
      Cancel(a[n..], b);
    }
  }

  lemma CharIsUtf8(c: seq<Byte>)
    requires IsChar(c)
    ensures Reads(c)
  {
    assert c[|c|..] == [];
  }

  lemma {:induction false} JoinedReads(chars: seq<seq<Byte>>)
    requires forall i :: 0 <= i < |chars| ==> IsChar(chars[i])
    ensures Reads(Joined(chars))
    decreases |chars|
  {
    if chars != [] {
      JoinedReads(chars[1..]);
      CharIsUtf8(chars[0]);
      Cancel(chars[0], Joined(chars[1..]));
    }
  }

  lemma {:induction false} Divided(s: seq<Byte>) returns (chars: seq<seq<Byte>>)
    requires Reads(s)
    ensures (forall i :: 0 <= i < |chars| ==> IsChar(chars[i])) && Joined(chars) == s
    decreases |s|
  {
    if s == [] {
      chars := [];
    } else {
      StartsWithChar(s);
      var first, rest := s[..Length(s[0])], s[Length(s[0])..];
      var more := Divided(rest);
      chars := [first] + more;
      assert chars[1..] == more && s == first + rest;
    }
  }

  /** Reading from the left accepts exactly the strings of the grammar. */
  lemma ReadsIffUtf8(s: seq<Byte>)
    ensures Reads(s) <==> IsUtf8(s)
  {
    if Reads(s) {
      var chars := Divided(s);
    }
    if IsUtf8(s) {
      var chars: seq<seq<Byte>> :| (forall i :: 0 <= i < |chars| ==> IsChar(chars[i])) && Joined(chars) == s;
      JoinedReads(chars);
    }
  }

  // ---- characters are the encodings of the Unicode scalar values ----

  predicate Scalar(v: int) { 0 <= v <= 0x10ffff && !(0xd800 <= v <= 0xdfff) }

  function Encoded(v: int): seq<Byte>
    requires Scalar(v)
  {
    if v < 0x80 then [v]
    else
      var v1 := v / 64;
      if v < 0x800 then [0xc0 + v1, 0x80 + v % 64]
      else
        var v2 := v1 / 64;
        if v < 0x10000 then [0xe0 + v2, 0x80 + v1 % 64, 0x80 + v % 64]
        else [0xf0 + v2 / 64, 0x80 + v2 % 64, 0x80 + v1 % 64, 0x80 + v % 64]
  }

  // The bits a first byte gives, and those of a tail.
  function Lead(b: Byte): int {
    if b <= 0x7f then b else if b <= 0xdf then b % 32 else if b <= 0xef then b % 16 else b % 8
  }

  function Six(b: Byte): int { b % 64 }

  function Value(c: seq<Byte>): int
    requires c != []
    decreases |c|
  {
    if |c| == 1 then Lead(c[0]) else Value(c[..|c| - 1]) * 64 + Six(c[|c| - 1])
  }

  lemma ValueOf2(c: seq<Byte>)
    requires |c| == 2
    ensures Value(c) == Lead(c[0]) * 64 + Six(c[1])
  {
    assert c[..1] == [c[0]];
  }

  lemma ValueOf3(c: seq<Byte>)
    requires |c| == 3
    ensures Value(c) == (Lead(c[0]) * 64 + Six(c[1])) * 64 + Six(c[2])
  {
    ValueOf2(c[..2]);
  }

  lemma ValueOf4(c: seq<Byte>)
    requires |c| == 4
    ensures Value(c) == ((Lead(c[0]) * 64 + Six(c[1])) * 64 + Six(c[2])) * 64 + Six(c[3])
  {
    ValueOf3(c[..3]);
  }

  // What the bytes of a character stand for.
  lemma LeadOf(b: Byte)
    ensures 0xc2 <= b <= 0xdf ==> Lead(b) == b - 0xc0
    ensures 0xe0 <= b <= 0xef ==> Lead(b) == b - 0xe0
    ensures 0xf0 <= b <= 0xf4 ==> Lead(b) == b - 0xf0
    ensures Tail(b) ==> Six(b) == b - 0x80
  {
  }

  lemma Digits(v: int, high: int, low: int)
    requires v == high * 64 + low && 0 <= low < 64
    ensures v / 64 == high && v % 64 == low
  {
  }

  lemma Encoded2(v: int)
    requires 0x80 <= v < 0x800
    ensures var c := Encoded(v); |c| == 2 && Is2(c[0], c[1]) && Value(c) == v
  {
    var c := Encoded(v);
    LeadOf(c[0]);
    LeadOf(c[1]);
    ValueOf2(c);
  }

  lemma Encoded3(v: int)
    requires 0x800 <= v < 0x10000 && Scalar(v)
    ensures var c := Encoded(v); |c| == 3 && Is3(c[0], c[1], c[2]) && Value(c) == v
  {
    var c := Encoded(v);
    var v1 := v / 64;
    assert 32 <= v1 < 1024 && !(0x360 <= v1 <= 0x37f);
    LeadOf(c[0]);
    LeadOf(c[1]);
    LeadOf(c[2]);
    ValueOf3(c);
  }

  lemma Encoded4(v: int)
    requires 0x10000 <= v <= 0x10ffff
    ensures var c := Encoded(v); |c| == 4 && Is4(c[0], c[1], c[2], c[3]) && Value(c) == v
  {
    var c := Encoded(v);
    var v2 := v / 64 / 64;
    assert 16 <= v2 < 272;
    LeadOf(c[0]);
    LeadOf(c[1]);
    LeadOf(c[2]);
    LeadOf(c[3]);
    ValueOf4(c);
  }

  /** Encoding a scalar value gives a character with that value. */
  lemma EncodedIsChar(v: int)
    requires Scalar(v)
    ensures IsChar(Encoded(v)) && Value(Encoded(v)) == v
  {
    if 0x80 <= v < 0x800 {
      Encoded2(v);
    } else if 0x800 <= v < 0x10000 {
      Encoded3(v);
    } else if 0x10000 <= v {
      Encoded4(v);
    }
  }

  lemma Decoded2(c: seq<Byte>)
    requires |c| == 2 && Is2(c[0], c[1])
    ensures Scalar(Value(c)) && Encoded(Value(c)) == c
  {
    ValueOf2(c);
    LeadOf(c[0]);
    LeadOf(c[1]);
    Digits(Value(c), c[0] - 0xc0, c[1] - 0x80);
  }

  lemma Decoded3(c: seq<Byte>)
    requires |c| == 3 && Is3(c[0], c[1], c[2])
    ensures Scalar(Value(c)) && Encoded(Value(c)) == c
  {
    ValueOf3(c);
    LeadOf(c[0]);
    LeadOf(c[1]);
    LeadOf(c[2]);
    var a: int, b: int, d: int := Lead(c[0]), Six(c[1]), Six(c[2]);
    Digits(Value(c), a * 64 + b, d);
    Digits(a * 64 + b, a, b);
  }

  lemma Decoded4(c: seq<Byte>)
    requires |c| == 4 && Is4(c[0], c[1], c[2], c[3])
    ensures Scalar(Value(c)) && Encoded(Value(c)) == c
  {
    ValueOf4(c);
    LeadOf(c[0]);
    LeadOf(c[1]);
    LeadOf(c[2]);
    LeadOf(c[3]);
    var v2: int := Lead(c[0]) * 64 + Six(c[1]);
    var v1: int := v2 * 64 + Six(c[2]);
    Digits(Value(c), v1, Six(c[3]));
    Digits(v1, v2, Six(c[2]));
    Digits(v2, Lead(c[0]), Six(c[1]));
  }

  /** A character is the encoding of its value, which is a scalar value. */
  lemma CharIsEncoded(c: seq<Byte>)
    requires IsChar(c)
    ensures Scalar(Value(c)) && Encoded(Value(c)) == c
  {
    if |c| == 2 {
      Decoded2(c);
    } else if |c| == 3 {
      Decoded3(c);
    } else if |c| == 4 {
      Decoded4(c);
    }
  }

  function EncodedAll(vs: seq<int>): seq<Byte>
    requires forall v :: v in vs ==> Scalar(v)
  {
    if vs == [] then [] else Encoded(vs[0]) + EncodedAll(vs[1..])
  }

  /** The accepted strings are exactly the encodings of sequences of Unicode scalar values. */
  lemma {:induction false} EncodingIsUtf8(vs: seq<int>)
    requires forall v :: v in vs ==> Scalar(v)
    ensures IsUtf8(EncodedAll(vs))
    decreases |vs|
  {
    ReadsIffUtf8(EncodedAll(vs));
    if vs != [] {
      EncodedIsChar(vs[0]);
      CharIsUtf8(Encoded(vs[0]));
      EncodingIsUtf8(vs[1..]);
      ReadsIffUtf8(EncodedAll(vs[1..]));
      Cancel(Encoded(vs[0]), EncodedAll(vs[1..]));
    }
  }

  lemma FirstIsEncoded(s: seq<Byte>) returns (v: int)
    requires Starts(s)
    ensures Scalar(v) && s == Encoded(v) + s[Length(s[0])..]
  {
    StartsWithChar(s);
    CharIsEncoded(s[..Length(s[0])]);
    v := Value(s[..Length(s[0])]);
    assert s == s[..Length(s[0])] + s[Length(s[0])..];
  }

  lemma {:induction false} Utf8IsEncoding(s: seq<Byte>) returns (vs: seq<int>)
    requires IsUtf8(s)
    ensures (forall v :: v in vs ==> Scalar(v)) && EncodedAll(vs) == s
    decreases |s|
  {
    ReadsIffUtf8(s);
    if s == [] {
      vs := [];
    } else {
      var n := Length(s[0]);
      var v := FirstIsEncoded(s);
      ReadsIffUtf8(s[n..]);
      var rest := Utf8IsEncoding(s[n..]);
      vs := [v] + rest;
      assert vs[1..] == rest && vs[0] == v;
    }
  }

  // ---- the value-based validator ----

  predicate InRange(v: int, n: nat) {
    (if n == 2 then 0x80 else if n == 3 then 0x800 else 0x10000) <= v <= 0x10ffff && !(0xd800 <= v <= 0xdfff)
  }

  predicate Tails(c: seq<Byte>) { forall i :: 1 <= i < |c| ==> Tail(c[i]) }

  // Between two and four bytes with the right lead and tails are a character exactly if the value fits.
  lemma ByValue(c: seq<Byte>)
    requires 2 <= |c| <= 4 && Length(c[0]) == |c|
    ensures IsChar(c) <==> Tails(c) && InRange(Value(c), |c|)
  {
    LeadOf(c[0]);
    LeadOf(c[1]);
    if |c| == 2 {
      ValueOf2(c);
    } else if |c| == 3 {
      LeadOf(c[2]);
      ByValue3(c);
    } else {
      ByValue4(c);
    }
  }

  lemma ByValue3(c: seq<Byte>)
    requires |c| == 3 && Length(c[0]) == 3
    ensures Is3(c[0], c[1], c[2]) <==> Tails(c) && InRange(Value(c), 3)
  {
    ValueOf3(c);
    LeadOf(c[0]);
    LeadOf(c[1]);
    LeadOf(c[2]);
  }

  lemma ByValue4(c: seq<Byte>)
    requires |c| == 4 && Length(c[0]) == 4
    ensures Is4(c[0], c[1], c[2], c[3]) <==> Tails(c) && InRange(Value(c), 4)
  {
    ValueOf4(c);
    LeadOf(c[0]);
    LeadOf(c[1]);
    LeadOf(c[2]);
    LeadOf(c[3]);
  }

  /** One multi-byte character: the tails are read one by one and the value is checked at the end. */
  method CheckSequence(s: seq<Byte>, at: nat, n: nat) returns (ok: bool)
    requires at < |s| && n == Length(s[at]) && n >= 2
    ensures ok <==> Starts(s[at..])
  {
    var rest := s[at..];
    StartsWithChar(rest);
    if n - 1 > |s| - (at + 1) {
      return false;
    }
    var c := rest[..n];
    var value := Lead(s[at]);
    for k := 1 to n
      invariant value == Value(c[..k])
      invariant forall i :: 1 <= i < k ==> Tail(c[i])
    {
      var next := s[at + k];
      assert next == c[k];
      if !(0x80 <= next < 0xc0) {
        ByValue(c);
        return false;
      }
      assert c[..k + 1][..k] == c[..k];
      value := value * 64 + Six(next);
    }
    assert c[..n] == c;
    ByValue(c);
    return InRange(value, n);
  }

  method ValidUtf8(s: seq<Byte>) returns (ok: bool)
    ensures ok <==> IsUtf8(s)
  {
    ReadsIffUtf8(s);
    var i := 0;
    assert s[0..] == s;
    while i < |s|
      invariant i <= |s| && (Reads(s) <==> Reads(s[i..]))
    {
      var n := Length(s[i]);
      if n >= 2 {
        var fits := CheckSequence(s, i, n);
        if !fits {
          return false;
        }
      } else if n == 0 {
        return false;
      }
      assert s[i..][n..] == s[i + n..];
      i := i + n;
    }
    return true;
  }

  // ---- the lead- and second-byte validator ----

  /** Whether the `n` bytes from `at` are a character, given that `n` is the length its first byte asks for. */
  method ValidSequence(s: seq<Byte>, at: nat, n: nat) returns (ok: bool)
    requires at < |s| && n == Length(s[at])
    ensures ok <==> Starts(s[at..])
  {
    if n == 0 || at + n > |s| {
      return false;
    }
    var c := s[at..][..n];
    for k := 1 to n
      invariant forall i :: 1 <= i < k ==> Tail(c[i])
    {
      if !(0x80 <= s[at + k] < 0xc0) {
        assert !Tail(c[k]);
        return false;
      }
    }
    assert n > 1 ==> Tail(c[1]);
    assert n > 2 ==> Tail(c[2]);
    assert n > 3 ==> Tail(c[3]);
    var first := s[at];
    var second := if n > 1 then s[at + 1] else 0;
    if n == 3 && ((first == 0xe0 && second < 0xa0) || (first == 0xed && second >= 0xa0)) {
      return false;
    }
    if n == 4 && ((first == 0xf0 && second < 0x90) || (first == 0xf4 && second >= 0x90)) {
      return false;
    }
    return true;
  }

  // ---- the sanitiser ----

  const Replacement: seq<Byte> := [0xef, 0xbf, 0xbd]

  /** Characters are kept; any byte that is part of none is replaced by U+FFFD. */
  function Sanitized(s: seq<Byte>): seq<Byte>
    decreases |s|
  {
    if s == [] then []
    else if Starts(s) then s[..Length(s[0])] + Sanitized(s[Length(s[0])..])
    else Replacement + Sanitized(s[1..])
  }

  lemma {:induction false} SanitizedIsUtf8(s: seq<Byte>)
    ensures Reads(Sanitized(s))
    decreases |s|
  {
    if s != [] {
      if Starts(s) {
        var n := Length(s[0]);
        SanitizedIsUtf8(s[n..]);
        StartsWithChar(s);
        CharIsUtf8(s[..n]);
        Cancel(s[..n], Sanitized(s[n..]));
      } else {
        SanitizedIsUtf8(s[1..]);
        CharIsUtf8(Replacement);
        Cancel(Replacement, Sanitized(s[1..]));
      }
    }
  }

  lemma SanitizedKeepsFirst(s: seq<Byte>)
    requires Starts(s) && Sanitized(s[Length(s[0])..]) == s[Length(s[0])..]
    ensures Sanitized(s) == s
  {
    SanitizedOnce(s);
    assert s == s[..Length(s[0])] + s[Length(s[0])..];
  }

  lemma {:induction false} SanitizedKeepsUtf8(s: seq<Byte>)
    requires Reads(s)
    ensures Sanitized(s) == s
    decreases |s|
  {
    if s != [] {
      SanitizedKeepsUtf8(s[Length(s[0])..]);
      SanitizedKeepsFirst(s);
    }
  }

  /** Sanitising gives UTF-8, and changes nothing exactly if it was UTF-8 before. */
  lemma SanitizedIffUtf8(s: seq<Byte>)
    ensures IsUtf8(Sanitized(s)) && (Sanitized(s) == s <==> IsUtf8(s))
  {
    SanitizedIsUtf8(s);
    ReadsIffUtf8(Sanitized(s));
    ReadsIffUtf8(s);
    if Reads(s) { SanitizedKeepsUtf8(s); }
  }

  // The length of the character at `i`, or 0 if there is none.
  function CharAt(s: seq<Byte>, i: nat): nat
    requires i < |s|
  {
    if Starts(s[i..]) then Length(s[i]) else 0
  }

  lemma SanitizedOnce(s: seq<Byte>)
    requires s != []
    ensures Starts(s) ==> Sanitized(s) == s[..Length(s[0])] + Sanitized(s[Length(s[0])..])
    ensures !Starts(s) ==> Sanitized(s) == Replacement + Sanitized(s[1..])
  {
  }

  // One turn of the loop.
  lemma SanitizedFrom(s: seq<Byte>, i: nat, done: seq<Byte>)
    requires i < |s|
    ensures i + CharAt(s, i) <= |s|
    ensures var n := CharAt(s, i);
      done + Sanitized(s[i..]) ==
        if n > 0 then done + s[i..i + n] + Sanitized(s[i + n..]) else done + Replacement + Sanitized(s[i + 1..])
  {
    var n, t := Length(s[i]), s[i..];
    if Starts(t) {
      assert t[..n] == s[i..i + n] && t[n..] == s[i + n..];
      SanitizedOnce(t);
      Reassociate(done, t[..n], Sanitized(t[n..]));
    } else {
      assert t[1..] == s[i + 1..];
      SanitizedOnce(t);
      Reassociate(done, Replacement, Sanitized(t[1..]));
    }
  }

  lemma StartsWithin(s: seq<Byte>, limit: nat, i: nat)
    requires i < limit <= |s|
    ensures CharAt(s[..limit], i) == if i + Length(s[i]) <= limit && Starts(s[i..]) then Length(s[i]) else 0
  {
    var n := Length(s[i]);
  }

  lemma StartsByLead(s: seq<Byte>)
    requires s != []
    ensures Length(s[0]) == 1 ==> Starts(s)
    ensures Length(s[0]) == 0 ==> !Starts(s)
  {
  }

  const MaxInput: nat := 1_048_576

  method CharWithin(input: seq<Byte>, limit: nat, i: nat) returns (n: nat)
    requires i < limit <= |input|
    ensures n == CharAt(input[..limit], i)
  {
    StartsWithin(input, limit, i);
    StartsByLead(input[i..]);
    n := Length(input[i]);
    if n == 1 {
      return 1;
    }
    if n > 1 && i + n <= limit {
      var fits := ValidSequence(input, i, n);
      return if fits then n else 0;
    }
    return 0;
  }

  method SanitizeWithin(input: seq<Byte>, limit: nat) returns (r: seq<Byte>)
    requires limit <= |input|
    ensures r == Sanitized(input[..limit])
  {
    var i := 0;
    r := [];
    assert input[..limit][0..] == input[..limit];
    while i < limit
      invariant i <= limit && r + Sanitized(input[..limit][i..]) == Sanitized(input[..limit])
    {
      SanitizedFrom(input[..limit], i, r);
      var n := CharWithin(input, limit, i);
      if n > 0 {
        assert input[..limit][i..i + n] == input[i..i + n];
        r := r + input[i..i + n];
        i := i + n;
      } else {
        r := r + Replacement;
        i := i + 1;
      }
    }
  }

  method SanitizeUtf8(input: seq<Byte>) returns (r: seq<Byte>)
    ensures IsUtf8(r)
    ensures r == Sanitized(if |input| <= MaxInput then input else input[..MaxInput])
    ensures |input| <= MaxInput ==> (r == input <==> IsUtf8(input))
  {
    var limit := if |input| <= MaxInput then |input| else MaxInput;
    r := SanitizeWithin(input, limit);
    SanitizedIffUtf8(input[..limit]);
    assert |input| <= MaxInput ==> input[..limit] == input;
  }

  // ---- truncation ----

  function Stride(s: seq<Byte>): (n: nat)
    requires s != []
    ensures 1 <= n <= |s|
  {
    if Starts(s) then Length(s[0]) else 1
  }

  // The length of the longest prefix within `room` that splits no character.
  function Cut(s: seq<Byte>, room: nat): (n: nat)
    ensures n <= |s| && n <= room
    decreases |s|
  {
    if s == [] || Stride(s) > room then 0 else Stride(s) + Cut(s[Stride(s)..], room - Stride(s))
  }

  lemma CutBeforeFirst(s: seq<Byte>, n: nat)
    requires s != [] && 0 < n < Length(s[0]) && n <= |s|
    ensures !Reads(s[..n])
  {
  }

  // A prefix that holds the first character is UTF-8 exactly if what follows the character is.
  lemma CutAfterFirst(s: seq<Byte>, n: nat)
    requires Starts(s) && Length(s[0]) <= n <= |s|
    ensures Reads(s[..n]) <==> Reads(s[Length(s[0])..][..n - Length(s[0])])
  {
    var step := Length(s[0]);
    StartsWithChar(s);
    CharIsUtf8(s[..step]);
    assert s[..n] == s[..step] + s[step..][..n - step];
    Cancel(s[..step], s[step..][..n - step]);
  }

  lemma {:induction false} CutIsUtf8(s: seq<Byte>, room: nat)
    requires Reads(s)
    ensures Reads(s[..Cut(s, room)])
    decreases |s|
  {
    if s != [] {
      var step := Length(s[0]);
      if step <= room {
        CutIsUtf8(s[step..], room - step);
        CutAfterFirst(s, Cut(s, room));
      }
    }
  }

  lemma CutOnce(s: seq<Byte>, room: nat)
    requires Starts(s)
    ensures var n := Length(s[0]); Cut(s, room) == if n > room then 0 else n + Cut(s[n..], room - n)
  {
  }

  lemma {:induction false} CutIsLongest(s: seq<Byte>, room: nat, n: nat)
    requires Reads(s) && Cut(s, room) < n <= room && n <= |s|
    ensures !Reads(s[..n])
    decreases |s|
  {
    CutOnce(s, room);
    var step := Length(s[0]);
    if step <= n {
      CutIsLongest(s[step..], room - step, n - step);
      CutAfterFirst(s, n);
    } else {
      CutBeforeFirst(s, n);
    }
  }

  // The same by position.
  function CutAt(s: seq<Byte>, i: nat, room: nat): nat
    requires i <= |s|
    decreases |s| - i
  {
    if i == |s| || Stride(s[i..]) > room then i else CutAt(s, i + Stride(s[i..]), room - Stride(s[i..]))
  }

  lemma {:induction false} CutAtIsCut(s: seq<Byte>, i: nat, room: nat)
    requires i <= |s|
    ensures CutAt(s, i, room) == i + Cut(s[i..], room)
    decreases |s| - i
  {
    if i < |s| {
      var step := Stride(s[i..]);
      assert s[i..][step..] == s[i + step..];
      if step <= room { CutAtIsCut(s, i + step, room - step); }
    }
  }

  method SafeLength(value: seq<Byte>, i: nat) returns (safe: nat)
    requires i < |value|
    ensures safe == Stride(value[i..])
  {
    var n := Length(value[i]);
    var fits := ValidSequence(value, i, n);
    return if n > 0 && fits then n else 1;
  }

  method CutPrefix(value: seq<Byte>, maxBytes: nat) returns (r: seq<Byte>)
    ensures r == value[..Cut(value, maxBytes)]
  {
    CutAtIsCut(value, 0, maxBytes);
    assert value[0..] == value;
    r := [];
    var i := 0;
    while i < |value|
      invariant i <= |value| && r == value[..i] && i <= maxBytes
      invariant CutAt(value, i, maxBytes - i) == Cut(value, maxBytes)
    {
      var safe := SafeLength(value, i);
      if |r| + safe > maxBytes {
        return;
      }
      assert value[..i + safe] == value[..i] + value[i..i + safe];
      r := r + value[i..i + safe];
      i := i + safe;
    }
  }

  method TruncateUtf8(value: seq<Byte>, maxBytes: nat) returns (r: seq<Byte>)
    ensures r <= value && |r| <= maxBytes
    ensures IsUtf8(value) ==> IsUtf8(r)
    ensures IsUtf8(value) ==> forall n :: |r| < n <= maxBytes && n <= |value| ==> !IsUtf8(value[..n])
  {
    if |value| <= maxBytes {
      return value;
    }
    r := CutPrefix(value, maxBytes);
    TruncationIsLongest(value, maxBytes);
  }

  lemma TruncationIsLongest(s: seq<Byte>, room: nat)
    ensures IsUtf8(s) ==> IsUtf8(s[..Cut(s, room)])
    ensures IsUtf8(s) ==> forall n :: Cut(s, room) < n <= room && n <= |s| ==> !IsUtf8(s[..n])
  {
    ReadsIffUtf8(s);
    ReadsIffUtf8(s[..Cut(s, room)]);
    if IsUtf8(s) {
      CutIsUtf8(s, room);
      forall n | Cut(s, room) < n <= room && n <= |s| ensures !IsUtf8(s[..n]) {
        CutIsLongest(s, room, n);
        ReadsIffUtf8(s[..n]);
      }
    }
  }
}
