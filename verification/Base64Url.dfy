/**
 The share-link secret codec: base64url without padding, with 32-bit accumulators that are never masked
 (apps/worker/src/share-link-crypto.ts:11-43,51-57; sections 3.5 and 5 of RFC 4648).
 */
module Base64Url {
  import opened Basics

  type Octet = x: int | 0 <= x < 256

  type Digit = x: int | 0 <= x < 64

  const WORD: nat := 0x1_0000_0000

  // ---------- the alphabet ----------

  function Letter(d: Digit): char {
    if d < 26 then ('A' as int + d) as char
    else if d < 52 then ('a' as int + (d - 26)) as char
    else if d < 62 then ('0' as int + (d - 52)) as char
    else if d == 62 then '-' else '_'
  }

  function IndexOf(c: char): (d: Option<Digit>)
    ensures d.Some? ==> Letter(d.value) == c
  {
    if 'A' <= c <= 'Z' then Some(c as int - 'A' as int)
    else if 'a' <= c <= 'z' then Some(c as int - 'a' as int + 26)
    else if '0' <= c <= '9' then Some(c as int - '0' as int + 52)
    else if c == '-' then Some(62) else if c == '_' then Some(63) else None
  }

  // Table 2 of RFC 4648.
  const UPPER: string := "ABCDEFGHIJKLMNOPQRSTUVWXYZ"
  const LOWER: string := "abcdefghijklmnopqrstuvwxyz"
  const FIGURES: string := "0123456789"

  function Alphabet(): string { UPPER + LOWER + FIGURES + "-_" }

  lemma UpperIs(i: nat)
    requires i < 26
    ensures |UPPER| == 26 && UPPER[i] == ('A' as int + i) as char
  {
  }

  lemma LowerIs(i: nat)
    requires i < 26
    ensures |LOWER| == 26 && LOWER[i] == ('a' as int + i) as char
  {
  }

  lemma FiguresAre(i: nat)
    requires i < 10
    ensures |FIGURES| == 10 && FIGURES[i] == ('0' as int + i) as char
  {
  }

  lemma LetterIs(d: Digit)
    ensures |Alphabet()| == 64 && Letter(d) == Alphabet()[d]
  {
    UpperIs(if d < 26 then d else 0);
    LowerIs(if 26 <= d < 52 then d - 26 else 0);
    FiguresAre(if 52 <= d < 62 then d - 52 else 0);
  }

  lemma AlphabetIs(d: Digit, c: char)
    ensures |Alphabet()| == 64 && Letter(d) == Alphabet()[d]
    ensures IndexOf(c) == Some(d) <==> Alphabet()[d] == c
    ensures IndexOf(c).None? <==> c !in Alphabet()
  {
    LetterIs(d);
    IndexOfLetter(d);
    if IndexOf(c).Some? { LetterIs(IndexOf(c).value); }
    if c in Alphabet() {
      var i :| 0 <= i < |Alphabet()| && Alphabet()[i] == c;
      LetterIs(i);
      IndexOfLetter(i);
    }
  }

  lemma IndexOfLetter(d: Digit)
    ensures IndexOf(Letter(d)) == Some(d)
  {
  }

  function Text(ds: seq<Digit>): (s: string)
    ensures |s| == |ds|
  {
    if ds == [] then "" else Text(ds[..|ds| - 1]) + [Letter(ds[|ds| - 1])]
  }

  // The digits of a text, if all of it is in the alphabet.
  function Digits(s: string): (ds: Option<seq<Digit>>)
    ensures ds.Some? ==> Text(ds.value) == s
  {
    if s == "" then Some([])
    else
      var front := Digits(s[..|s| - 1]);
      var last := IndexOf(s[|s| - 1]);
      if front.None? || last.None? then None
      else
        assert (front.value + [last.value])[..|front.value|] == front.value;
        Some(front.value + [last.value])
  }

  lemma {:induction false} DigitsOfText(ds: seq<Digit>)
    ensures Digits(Text(ds)) == Some(ds)
  {
    if ds == [] {
    } else {
      DigitsOfText(ds[..|ds| - 1]);
      IndexOfLetter(ds[|ds| - 1]);
      var t := Text(ds);
      assert t[..|t| - 1] == Text(ds[..|ds| - 1]) && t[|t| - 1] == Letter(ds[|ds| - 1]);
      assert ds == ds[..|ds| - 1] + [ds[|ds| - 1]];
    }
  }

  lemma {:induction false} TextOfSum(a: seq<Digit>, b: seq<Digit>)
    ensures Text(a + b) == Text(a) + Text(b)
  {
    if b == [] {
      assert a + b == a;
    } else {
      TextOfSum(a, b[..|b| - 1]);
      assert (a + b)[..|a + b| - 1] == a + b[..|b| - 1];
    }
  }

  // ---------- the reference: regrouping bits, nothing beyond the pending ones kept ----------

  // Powers of two for the even widths that occur.
  function P(bits: nat): nat {
    if bits == 0 then 1 else if bits == 2 then 4 else if bits == 4 then 16 else if bits == 6 then 64
    else if bits == 8 then 256 else if bits == 10 then 1024 else 4096
  }

  predicate Width(bits: nat) { bits <= 12 && bits % 2 == 0 }

  // `pend` holds `bits` bits not yet written, the oldest highest.
  function Enc(pend: nat, bits: nat, bytes: seq<Octet>): seq<Digit>
    requires Width(bits) && pend < P(bits)
    decreases |bytes|, bits
  {
    if bits >= 6 then [pend / P(bits - 6)] + Enc(pend % P(bits - 6), bits - 6, bytes)
    else if bytes != [] then Enc(pend * 256 + bytes[0], bits + 8, bytes[1..])
    else if bits > 0 then [pend * P(6 - bits)] else []
  }

  function Dec(pend: nat, bits: nat, digits: seq<Digit>): seq<Octet>
    requires Width(bits) && pend < P(bits)
    decreases |digits|, bits
  {
    if bits >= 8 then [pend / P(bits - 8)] + Dec(pend % P(bits - 8), bits - 8, digits)
    else if digits != [] then Dec(pend * 64 + digits[0], bits + 6, digits[1..])
    else []
  }

  function Encode(bytes: seq<Octet>): seq<Digit> { Enc(0, 0, bytes) }

  function Decode(digits: seq<Digit>): seq<Octet> { Dec(0, 0, digits) }

  // The definition by groups of three octets.
  function Groups(b: seq<Octet>): seq<Digit> {
    if |b| == 0 then []
    else if |b| == 1 then [b[0] / 4, b[0] % 4 * 16]
    else if |b| == 2 then [b[0] / 4, b[0] % 4 * 16 + b[1] / 16, b[1] % 16 * 4]
    else [b[0] / 4, b[0] % 4 * 16 + b[1] / 16, b[1] % 16 * 4 + b[2] / 64, b[2] % 64] + Groups(b[3..])
  }

  // One octet at a time, from each of the three phases.
  lemma {:induction false} Enc0(b: Octet, rest: seq<Octet>)
    ensures Enc(0, 0, [b] + rest) == [b / 4] + Enc(b % 4, 2, rest)
  {
    assert ([b] + rest)[1..] == rest;
  }

  lemma {:induction false} Enc2(p: nat, b: Octet, rest: seq<Octet>)
    requires p < 4
    ensures Enc(p, 2, [b] + rest) == [p * 16 + b / 16] + Enc(b % 16, 4, rest)
  {
    assert ([b] + rest)[1..] == rest;
    assert (p * 256 + b) / 16 == p * 16 + b / 16 && (p * 256 + b) % 16 == b % 16;
  }

  lemma {:induction false} Enc4(p: nat, b: Octet, rest: seq<Octet>)
    requires p < 16
    ensures Enc(p, 4, [b] + rest) == [p * 4 + b / 64, b % 64] + Enc(0, 0, rest)
  {
    assert ([b] + rest)[1..] == rest;
    assert (p * 256 + b) / 64 == p * 4 + b / 64 && (p * 256 + b) % 64 == b % 64;
    var x := b % 64;
    assert Enc(x, 6, rest) == [x / 1] + Enc(x % 1, 0, rest);
    assert x / 1 == x && x % 1 == 0;
  }

  lemma {:induction false} EncodeIsGroups(b: seq<Octet>)
    ensures Encode(b) == Groups(b)
  {
    if |b| == 0 {
    } else {
      assert b == [b[0]] + b[1..];
      Enc0(b[0], b[1..]);
      if |b| > 1 {
        assert b[1..] == [b[1]] + b[2..];
        Enc2(b[0] % 4, b[1], b[2..]);
        if |b| > 2 {
          assert b[2..] == [b[2]] + b[3..];
          Enc4(b[1] % 16, b[2], b[3..]);
          EncodeIsGroups(b[3..]);
        }
      }
    }
  }

  lemma {:induction false} GroupsLength(b: seq<Octet>)
    ensures |Groups(b)| == (8 * |b| + 5) / 6
  {
    if |b| < 3 {
    } else {
      GroupsLength(b[3..]);
    }
  }

  // ---------- round trips ----------

  lemma {:induction false} Dec0(d: Digit, rest: seq<Digit>)
    ensures Dec(0, 0, [d] + rest) == Dec(d, 6, rest)
  {
    assert ([d] + rest)[1..] == rest;
  }

  lemma {:induction false} Dec6(p: nat, d: Digit, rest: seq<Digit>)
    requires p < 64
    ensures Dec(p, 6, [d] + rest) == [p * 4 + d / 16] + Dec(d % 16, 4, rest)
  {
    assert ([d] + rest)[1..] == rest;
    assert (p * 64 + d) / 16 == p * 4 + d / 16 && (p * 64 + d) % 16 == d % 16;
  }

  lemma {:induction false} Dec4(p: nat, d: Digit, rest: seq<Digit>)
    requires p < 16
    ensures Dec(p, 4, [d] + rest) == [p * 16 + d / 4] + Dec(d % 4, 2, rest)
  {
    assert ([d] + rest)[1..] == rest;
    assert (p * 64 + d) / 4 == p * 16 + d / 4 && (p * 64 + d) % 4 == d % 4;
  }

  lemma {:induction false} Dec2(p: nat, d: Digit, rest: seq<Digit>)
    requires p < 4
    ensures Dec(p, 2, [d] + rest) == [p * 64 + d] + Dec(0, 0, rest)
  {
    assert ([d] + rest)[1..] == rest;
    var x := p * 64 + d;
    assert Dec(x, 8, rest) == [x / 1] + Dec(x % 1, 0, rest);
    assert x / 1 == x && x % 1 == 0;
  }

  lemma DecFour(a: Digit, b: Digit, c: Digit, d: Digit, rest: seq<Digit>)
    ensures Decode([a, b, c, d] + rest) == [a * 4 + b / 16, b % 16 * 16 + c / 4, c % 4 * 64 + d] + Decode(rest)
  {
    assert [a, b, c, d] + rest == [a] + ([b] + ([c] + ([d] + rest)));
    Dec0(a, [b] + ([c] + ([d] + rest)));
    Dec6(a, b, [c] + ([d] + rest));
    Dec4(b % 16, c, [d] + rest);
    Dec2(c % 4, d, rest);
  }

  function Octet1(a: Digit, b: Digit): Octet { (a as int) * 4 + (b as int) / 16 }

  function Octet2(b: Digit, c: Digit): Octet { (b as int) % 16 * 16 + (c as int) / 4 }

  lemma DecShort(ds: seq<Digit>)
    requires |ds| < 4
    ensures Decode(ds) == if |ds| <= 1 then []
                          else if |ds| == 2 then [Octet1(ds[0], ds[1])] else [Octet1(ds[0], ds[1]), Octet2(ds[1], ds[2])]
  {
    if |ds| >= 1 {
      assert ds == [ds[0]] + ds[1..];
      Dec0(ds[0], ds[1..]);
      if |ds| >= 2 {
        assert ds[1..] == [ds[1]] + ds[2..];
        Dec6(ds[0], ds[1], ds[2..]);
        if |ds| == 3 {
          assert ds[2..] == [ds[2]] + [];
          Dec4(ds[1] % 16, ds[2], []);
        }
      }
    }
  }

  lemma Join4(a: Octet, b: Octet, c: Octet)
    ensures a / 4 * 4 + (a % 4 * 16 + b / 16) / 16 == a
    ensures (a % 4 * 16 + b / 16) % 16 * 16 + (b % 16 * 4 + c / 64) / 4 == b
    ensures (b % 16 * 4 + c / 64) % 4 * 64 + c % 64 == c
  {
  }

  // Decoding undoes encoding for every sequence of octets.
  lemma {:induction false} DecodeEncode(b: seq<Octet>)
    ensures Decode(Encode(b)) == b
  {
    EncodeIsGroups(b);
    if |b| >= 3 {
      DecodeEncode(b[3..]);
      EncodeIsGroups(b[3..]);
      DecFour(b[0] / 4, b[0] % 4 * 16 + b[1] / 16, b[1] % 16 * 4 + b[2] / 64, b[2] % 64, Groups(b[3..]));
      Join4(b[0], b[1], b[2]);
      assert b == [b[0], b[1], b[2]] + b[3..];
    } else {
      DecShort(Groups(b));
      if |b| == 2 { Join4(b[0], b[1], 0); }
    }
  }

  // A text is somebody's encoding exactly when it has no lone digit at the end and its trailing bits are zero.
  predicate Canonical(ds: seq<Digit>) {
    |ds| % 4 == 0 || (|ds| % 4 == 2 && ds[|ds| - 1] % 16 == 0) || (|ds| % 4 == 3 && ds[|ds| - 1] % 4 == 0)
  }

  lemma Split4(a: Digit, b: Digit, c: Digit, d: Digit)
    ensures var x, y, z := a * 4 + b / 16, b % 16 * 16 + c / 4, c % 4 * 64 + d;
            x / 4 == a && x % 4 * 16 + y / 16 == b && y % 16 * 4 + z / 64 == c && z % 64 == d
  {
  }

  lemma EncodeDecodeTwo(a: Digit, b: Digit)
    ensures Groups(Decode([a, b])) == [a, b] <==> b % 16 == 0
  {
    DecShort([a, b]);
    var x := Octet1(a, b);
    Mod(x, 4, a, b / 16);
    assert Groups([x]) == [x / 4, x % 4 * 16];
  }

  lemma EncodeDecodeThree(a: Digit, b: Digit, c: Digit)
    ensures Groups(Decode([a, b, c])) == [a, b, c] <==> c % 4 == 0
  {
    DecShort([a, b, c]);
    var x, y := Octet1(a, b), Octet2(b, c);
    Mod(x, 4, a, b / 16);
    Mod(y, 16, b % 16, c / 4);
    Lists([x / 4, x % 4 * 16 + y / 16, y % 16 * 4], a, b, c);
  }

  lemma Lists(ds: seq<Digit>, a: Digit, b: Digit, c: Digit)
    requires |ds| == 3 && ds[0] == a && ds[1] == b
    ensures ds == [a, b, c] <==> ds[2] == c
  {
  }

  lemma EncodeDecodeShort(ds: seq<Digit>)
    requires |ds| < 4
    ensures Encode(Decode(ds)) == ds <==> Canonical(ds)
  {
    EncodeIsGroups(Decode(ds));
    if |ds| <= 1 {
      DecShort(ds);
    } else if |ds| == 2 {
      assert ds == [ds[0], ds[1]];
      EncodeDecodeTwo(ds[0], ds[1]);
    } else {
      assert ds == [ds[0], ds[1], ds[2]];
      EncodeDecodeThree(ds[0], ds[1], ds[2]);
    }
  }

  lemma {:induction false} EncodeDecode(ds: seq<Digit>)
    ensures Encode(Decode(ds)) == ds <==> Canonical(ds)
  {
    if |ds| < 4 {
      EncodeDecodeShort(ds);
    } else {
      var head, tail := [ds[0], ds[1], ds[2], ds[3]], ds[4..];
      assert ds == head + tail;
      EncodeDecodeFour(ds[0], ds[1], ds[2], ds[3], tail);
      EncodeDecode(tail);
      SameTail(head, Encode(Decode(tail)), tail);
    }
  }

  lemma SameTail(head: seq<Digit>, a: seq<Digit>, b: seq<Digit>)
    ensures head + a == head + b <==> a == b
  {
    if head + a == head + b { assert (head + a)[|head|..] == a && (head + b)[|head|..] == b; }
  }

  lemma EncodeDecodeFour(a: Digit, b: Digit, c: Digit, d: Digit, rest: seq<Digit>)
    ensures Encode(Decode([a, b, c, d] + rest)) == [a, b, c, d] + Encode(Decode(rest))
  {
    DecFour(a, b, c, d, rest);
    Split4(a, b, c, d);
    EncodeIsGroups(Decode([a, b, c, d] + rest));
    EncodeIsGroups(Decode(rest));
    assert Decode([a, b, c, d] + rest)[3..] == Decode(rest);
  }

  // ---------- the loops, on unmasked 32-bit accumulators ----------

  // A shift or an addition below the shifted part, in 32 bits.
  function Push(acc: nat, bits: nat, value: nat): (r: nat)
    ensures r < WORD
  {
    (acc * P(bits) + value) % WORD
  }

  lemma Mod(x: int, m: int, q: int, r: int)
    requires 0 <= r < m && x == m * q + r
    ensures x % m == r && x / m == q
  {
    var d := q - x / m;
    assert m * d == x % m - r by { assert m * d == m * q - m * (x / m); }
    if d >= 1 { AtLeast(m, d); }
    if d <= -1 { AtLeast(m, -d); }
  }

  lemma AtLeast(m: int, d: int)
    requires m > 0 && d >= 1
    ensures m * d >= m
  {
  }

  // Reducing modulo 2^32 first does not change the low bits.
  lemma LowBits(x: nat, m: nat)
    requires m in {64, 256, 1024, 4096}
    ensures x % WORD % m == x % m
  {
    var q := x / WORD;
    var k := (x % WORD) / m;
    if m == 64 { Mod(x, 64, 0x400_0000 * q + k, x % WORD % 64); }
    else if m == 256 { Mod(x, 256, 0x100_0000 * q + k, x % WORD % 256); }
    else if m == 1024 { Mod(x, 1024, 0x40_0000 * q + k, x % WORD % 1024); }
    else { Mod(x, 4096, 0x10_0000 * q + k, x % WORD % 4096); }
  }

  // Whatever has been shifted out or up, the pending bits are those of the masked accumulator.
  lemma PushByte(acc: nat, bits: nat, b: Octet)
    requires bits <= 4 && bits % 2 == 0
    ensures Push(acc, 8, b) % P(bits + 8) == acc % P(bits) * 256 + b
  {
    var x := acc * 256 + b;
    LowBits(x, P(bits + 8));
    var q, r := acc / P(bits), acc % P(bits);
    if bits == 0 { Mod(x, 256, q, b); }
    else if bits == 2 { Mod(x, 1024, q, r * 256 + b); }
    else { Mod(x, 4096, q, r * 256 + b); }
  }

  lemma PushDigit(acc: nat, bits: nat, d: Digit)
    requires bits <= 6 && bits % 2 == 0
    ensures Push(acc, 6, d) % P(bits + 6) == acc % P(bits) * 64 + d
  {
    var x := acc * 64 + d;
    LowBits(x, P(bits + 6));
    var q, r := acc / P(bits), acc % P(bits);
    if bits == 0 { Mod(x, 64, q, d); }
    else if bits == 2 { Mod(x, 256, q, r * 64 + d); }
    else if bits == 4 { Mod(x, 1024, q, r * 64 + d); }
    else { Mod(x, 4096, q, r * 64 + d); }
  }

  // acc = (hi * m + lo) * n + rest, so the bits above n are those of the masked accumulator.
  lemma Field(acc: nat, n: nat, m: nat)
    requires n > 0 && m > 0
    ensures acc / n % m == acc % (n * m) / n && acc % n == acc % (n * m) % n
  {
    var mid, rest := acc / n, acc % n;
    var hi, lo := mid / m, mid % m;
    assert acc == n * (m * hi + lo) + rest;
    assert n * lo + rest < n * m by { assert n * lo <= n * (m - 1); assert n * (m - 1) == n * m - n; }
    assert acc == (n * m) * hi + (n * lo + rest) by { assert n * (m * hi + lo) == (n * m) * hi + n * lo; }
    assert n * lo >= 0;
    assert n * m > 0;
    Mod(acc, n * m, hi, n * lo + rest);
    Mod(n * lo + rest, n, lo, rest);
  }

  lemma TakeDigit(acc: nat, bits: nat)
    requires Width(bits) && bits >= 6
    ensures acc / P(bits - 6) % 64 == acc % P(bits) / P(bits - 6) && acc % P(bits - 6) == acc % P(bits) % P(bits - 6)
  {
    Field(acc, P(bits - 6), 64);
  }

  lemma TakeByte(acc: nat, bits: nat)
    requires Width(bits) && bits >= 8
    ensures acc / P(bits - 8) % 256 == acc % P(bits) / P(bits - 8) && acc % P(bits - 8) == acc % P(bits) % P(bits - 8)
  {
    Field(acc, P(bits - 8), 256);
  }

  lemma EncPush(acc: nat, bits: nat, bytes: seq<Octet>)
    requires bits <= 4 && bits % 2 == 0 && bytes != []
    ensures Enc(acc % P(bits), bits, bytes) == Enc(Push(acc, 8, bytes[0]) % P(bits + 8), bits + 8, bytes[1..])
  {
    PushByte(acc, bits, bytes[0]);
  }

  lemma EncTake(output: string, acc: nat, bits: nat, bytes: seq<Octet>)
    requires Width(bits) && bits >= 6
    ensures output + Text(Enc(acc % P(bits), bits, bytes))
         == output + [Letter(acc / P(bits - 6) % 64)] + Text(Enc(acc % P(bits - 6), bits - 6, bytes))
  {
    TakeDigit(acc, bits);
    var digit := acc / P(bits - 6) % 64;
    TextOfSum([digit], Enc(acc % P(bits - 6), bits - 6, bytes));
    Letters(digit);
  }

  // What remains to be written from an accumulator.
  function Unwritten(acc: nat, bits: nat, bytes: seq<Octet>): string
    requires Width(bits)
  {
    Text(Enc(acc % P(bits), bits, bytes))
  }

  // The inner loop: the digits that are complete are written.
  method WriteDigits(value: nat, pending: nat, before: string, ghost rest: seq<Octet>) returns (bits: nat, output: string)
    requires Width(pending)
    ensures bits <= 4 && bits % 2 == 0
    ensures output + Unwritten(value, bits, rest) == before + Unwritten(value, pending, rest)
  {
    bits, output := pending, before;
    ghost var all := before + Unwritten(value, pending, rest);
    while bits >= 6
      invariant Width(bits)
      invariant output + Unwritten(value, bits, rest) == all
    {
      EncTake(output, value, bits, rest);
      bits := bits - 6;
      output := output + [Letter(value / P(bits) % 64)];
    }
  }

  method BytesToBase64Url(bytes: seq<Octet>) returns (output: string)
    ensures output == Text(Encode(bytes))
  {
    output := "";
    var value, bits := 0, 0;
    ghost var rest, all := bytes, Text(Encode(bytes));
    assert Unwritten(0, 0, bytes) == all;
    for i := 0 to |bytes|
      invariant bits <= 4 && bits % 2 == 0 && 0 <= value < WORD
      invariant rest == bytes[i..]
      invariant all == output + Unwritten(value, bits, rest)
    {
      EncPush(value, bits, rest);
      value := Push(value, 8, bytes[i]);
      rest := rest[1..];
      bits, output := WriteDigits(value, bits + 8, output, rest);
    }
    LastDigits(output, value, bits);
    if bits > 0 { output := output + [Letter(Push(value, 6 - bits, 0) % 64)]; }
  }

  lemma LastDigits(output: string, acc: nat, bits: nat)
    requires bits in {0, 2, 4}
    ensures output + Unwritten(acc, bits, []) == if bits > 0 then output + [Letter(Push(acc, 6 - bits, 0) % 64)] else output
  {
    if bits > 0 {
      LastDigit(acc, bits);
      Letters(acc % P(bits) * P(6 - bits));
    } else {
      assert Enc(acc % 1, 0, []) == [];
    }
  }

  lemma Letters(d: Digit)
    ensures Text([d]) == [Letter(d)]
  {
    assert [d][..0] == [];
  }

  // The last bits are padded with zeros on the right.
  lemma LastDigit(acc: nat, bits: nat)
    requires bits in {2, 4}
    ensures Push(acc, 6 - bits, 0) % 64 == acc % P(bits) * P(6 - bits)
  {
    var x := acc * P(6 - bits);
    LowBits(x, 64);
    if bits == 2 { Mod(x, 64, acc / 4, acc % 4 * 16); } else { Mod(x, 64, acc / 16, acc % 16 * 4); }
  }

  lemma DecPush(acc: nat, bits: nat, digits: seq<Digit>)
    requires bits <= 6 && bits % 2 == 0 && digits != []
    ensures Dec(acc % P(bits), bits, digits) == Dec(Push(acc, 6, digits[0]) % P(bits + 6), bits + 6, digits[1..])
  {
    PushDigit(acc, bits, digits[0]);
  }

  lemma DecTake(output: seq<Octet>, acc: nat, bits: nat, digits: seq<Digit>)
    requires Width(bits) && bits >= 8
    ensures output + Dec(acc % P(bits), bits, digits)
         == output + [acc / P(bits - 8) % 256] + Dec(acc % P(bits - 8), bits - 8, digits)
  {
    TakeByte(acc, bits);
  }

  // An empty text, or a character outside the alphabet, is refused.
  method Base64UrlToBytes(value: string) returns (bytes: Option<seq<Octet>>)
    ensures bytes == if value == "" || Digits(value).None? then None else Some(Decode(Digits(value).value))
  {
    if value == "" { return None; }
    var digits := Digits(value);
    if digits.None? { return None; }
    var output := DigitsToBytes(digits.value);
    bytes := Some(output);
  }

  // What remains to be decoded from an accumulator.
  function Rest(acc: nat, bits: nat, digits: seq<Digit>): seq<Octet>
    requires Width(bits)
  {
    Dec(acc % P(bits), bits, digits)
  }

  // One digit pushed, and the octet it completes, if any.
  lemma DecDigit(output: seq<Octet>, acc: nat, bits: nat, digits: seq<Digit>)
    requires bits <= 6 && bits % 2 == 0 && digits != []
    ensures var pushed := Push(acc, 6, digits[0]);
            output + Rest(acc, bits, digits) ==
              if bits + 6 >= 8 then output + [pushed / P(bits - 2) % 256] + Rest(pushed, bits - 2, digits[1..])
              else output + Rest(pushed, bits + 6, digits[1..])
  {
    DecPush(acc, bits, digits);
    if bits + 6 >= 8 { DecTake(output, Push(acc, 6, digits[0]), bits + 6, digits[1..]); }
  }

  method DigitsToBytes(digits: seq<Digit>) returns (output: seq<Octet>)
    ensures output == Decode(digits)
  {
    output := [];
    var buffer, bits := 0, 0;
    ghost var rest, all := digits, Decode(digits);
    for i := 0 to |digits|
      invariant bits <= 6 && bits % 2 == 0 && 0 <= buffer < WORD
      invariant rest == digits[i..]
      invariant all == output + Rest(buffer, bits, rest)
    {
      DecDigit(output, buffer, bits, rest);
      buffer := Push(buffer, 6, digits[i]);
      bits := bits + 6;
      rest := rest[1..];
      if bits >= 8 {
        bits := bits - 8;
        output := output + [buffer / P(bits) % 256];
      }
    }
    assert Rest(buffer, bits, []) == [];
  }

  // The length of an encoding, as the check computes it.
  function EncodedLength(n: nat): nat { (8 * n + 5) / 6 }

  // A secret of n octets is accepted exactly when it is the encoding of some n octets, n at least one.
  method ValidateSecret(value: string, n: nat) returns (ok: bool)
    ensures ok <==> n > 0 && exists b: seq<Octet> :: |b| == n && value == Text(Encode(b))
  {
    ValidExactly(value, n);
    if |value| != EncodedLength(n) { return false; }
    var bytes := Base64UrlToBytes(value);
    if bytes.None? || |bytes.value| != n { return false; }
    var again := BytesToBase64Url(bytes.value);
    ok := again == value;
  }

  ghost predicate Valid(value: string, n: nat) {
    |value| == EncodedLength(n) && value != "" && Digits(value).Some?
    && |Decode(Digits(value).value)| == n && Text(Encode(Decode(Digits(value).value))) == value
  }

  lemma ValidExactly(value: string, n: nat)
    ensures Valid(value, n) <==> n > 0 && exists b: seq<Octet> :: |b| == n && value == Text(Encode(b))
  {
    if Valid(value, n) {
      var b := Decode(Digits(value).value);
      assert |b| == n && value == Text(Encode(b));
    }
    if b: seq<Octet> :| n > 0 && |b| == n && value == Text(Encode(b)) {
      EncodeIsGroups(b);
      GroupsLength(b);
      DigitsOfText(Encode(b));
      DecodeEncode(b);
    }
  }

  // What the re-encoding adds to the alphabet and the length: nonzero trailing bits are refused.
  lemma {:induction false} TrailingBitsDecide(ds: seq<Digit>, n: nat)
    requires n > 0 && |ds| == EncodedLength(n)
    ensures Valid(Text(ds), n) <==> Canonical(ds)
  {
    DigitsOfText(ds);
    EncodeDecode(ds);
    DecodedLength(ds);
    if Text(Encode(Decode(ds))) == Text(ds) { DigitsOfText(Encode(Decode(ds))); }
  }

  lemma {:induction false} DecodedLength(ds: seq<Digit>)
    ensures |Decode(ds)| == 6 * |ds| / 8
  {
    if |ds| < 4 {
      DecShort(ds);
    } else {
      assert ds == [ds[0], ds[1], ds[2], ds[3]] + ds[4..];
      DecFour(ds[0], ds[1], ds[2], ds[3], ds[4..]);
      DecodedLength(ds[4..]);
    }
  }
}
