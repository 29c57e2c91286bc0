/** issue_token and parse_token: the unpadded URL-safe base64 form of RFC 4648,
    sections 3.5 and 5. */
module Tokens {
  import opened Basics
  import opened Text

  type Byte = n: int | 0 <= n < 256
  type Sextet = n: int | 0 <= n < 64

  // ---------------------------------------------------------------- alphabets

  function CharOf(n: Sextet): char {
    if n < 26 then ('A' as int + n) as char
    else if n < 52 then ('a' as int + (n - 26)) as char
    else if n < 62 then ('0' as int + (n - 52)) as char
    else if n == 62 then '-' else '_'
  }

  function IndexOf(c: char): Option<Sextet> {
    if 'A' <= c <= 'Z' then Some(c as int - 'A' as int)
    else if 'a' <= c <= 'z' then Some(c as int - 'a' as int + 26)
    else if '0' <= c <= '9' then Some(c as int - '0' as int + 52)
    else if c == '-' then Some(62)
    else if c == '_' then Some(63)
    else None
  }

  /** The alphabet is a bijection. */
  lemma AlphabetBijective(n: Sextet, c: char)
    ensures IndexOf(CharOf(n)) == Some(n)
    ensures IndexOf(c).Some? ==> CharOf(IndexOf(c).value) == c
  {
  }

  function HexOf(n: int): char
    requires 0 <= n < 16
  {
    if n < 10 then ('0' as int + n) as char else ('a' as int + (n - 10)) as char
  }

  function HexValue(c: char): (n: int)
    requires IsLowerHex(c)
    ensures 0 <= n < 16 && HexOf(n) == c
  {
    if '0' <= c <= '9' then c as int - '0' as int else c as int - 'a' as int + 10
  }

  /** bytes.hex() */
  function Hex(bytes: seq<Byte>): (text: string)
    ensures |text| == 2 * |bytes| && forall i :: 0 <= i < |text| ==> IsLowerHex(text[i])
  {
    if bytes == [] then [] else [HexOf(bytes[0] / 16), HexOf(bytes[0] % 16)] + Hex(bytes[1..])
  }

  function Unhex(text: string): (bytes: seq<Byte>)
    requires |text| % 2 == 0 && forall i :: 0 <= i < |text| ==> IsLowerHex(text[i])
    ensures |bytes| == |text| / 2
  {
    if text == [] then [] else [16 * HexValue(text[0]) + HexValue(text[1])] + Unhex(text[2..])
  }

  lemma HexPair(x: char, y: char)
    requires IsLowerHex(x) && IsLowerHex(y)
    ensures var b := 16 * HexValue(x) + HexValue(y); HexOf(b / 16) == x && HexOf(b % 16) == y
  {
    var u, v := HexValue(x), HexValue(y);
    hide HexOf, HexValue, IsLowerHex;
    assert (16 * u + v) / 16 == u && (16 * u + v) % 16 == v;
  }

  lemma {:induction false} HexUnhex(text: string)
    requires |text| % 2 == 0 && forall i :: 0 <= i < |text| ==> IsLowerHex(text[i])
    ensures Hex(Unhex(text)) == text
  {
    if text != [] {
      var x, y, rest := text[0], text[1], text[2..];
      HexUnhex(rest);
      HexPair(x, y);
      hide HexOf, HexValue, IsLowerHex;
      assert Unhex(text) == [16 * HexValue(x) + HexValue(y)] + Unhex(rest);
      assert Unhex(text)[1..] == Unhex(rest);
      assert text == [x, y] + rest;
    }
  }

  // ---------------------------------------------------------------- base64 without padding

  // The bits two neighbouring bytes share among sextets, and back.

  function S0(a: Byte): Sextet { a / 4 }
  function S1(a: Byte, b: int): Sextet requires 0 <= b < 256 { a % 4 * 16 + b / 16 }
  function S2(b: Byte, c: int): Sextet requires 0 <= c < 256 { b % 16 * 4 + c / 64 }
  function S3(c: Byte): Sextet { c % 64 }

  function B0(p: int, q: int): Byte requires 0 <= p < 64 && 0 <= q < 64 { p * 4 + q / 16 }
  function B1(q: int, r: int): Byte requires 0 <= q < 64 && 0 <= r < 64 { q % 16 * 16 + r / 4 }
  function B2(r: int, s: int): Byte requires 0 <= r < 64 && 0 <= s < 64 { r % 4 * 64 + s }

  lemma BytesBack(a: Byte, b: Byte, c: Byte)
    ensures B0(S0(a), S1(a, b)) == a && B1(S1(a, b), S2(b, c)) == b && B2(S2(b, c), S3(c)) == c
  {
  }

  lemma SextetsBack(p: Sextet, q: Sextet, r: Sextet, s: Sextet)
    ensures S0(B0(p, q)) == p && S1(B0(p, q), B1(q, r)) == q && S2(B1(q, r), B2(r, s)) == r && S3(B2(r, s)) == s
    ensures S1(B0(p, q), 0) == q <==> q % 16 == 0
    ensures S2(B1(q, r), 0) == r <==> r % 4 == 0
  {
  }

  /** Three bytes make four sextets; a final one or two bytes make two or three. */
  function Sextets(bytes: seq<Byte>): (sextets: seq<Sextet>)
    ensures |sextets| == (|bytes| * 4 + 2) / 3
  {
    if |bytes| == 0 then []
    else if |bytes| == 1 then [S0(bytes[0]), S1(bytes[0], 0)]
    else if |bytes| == 2 then [S0(bytes[0]), S1(bytes[0], bytes[1]), S2(bytes[1], 0)]
    else [S0(bytes[0]), S1(bytes[0], bytes[1]), S2(bytes[1], bytes[2]), S3(bytes[2])] + Sextets(bytes[3..])
  }

  /** Decoding ignores the unused trailing bits. */
  function Bytes(sextets: seq<Sextet>): (bytes: seq<Byte>)
    requires |sextets| % 4 != 1
    ensures 4 * |bytes| <= 3 * |sextets| < 4 * |bytes| + 4
  {
    if |sextets| == 0 then []
    else if |sextets| == 2 then [B0(sextets[0], sextets[1])]
    else if |sextets| == 3 then [B0(sextets[0], sextets[1]), B1(sextets[1], sextets[2])]
    else
      DropBlock(|sextets|);
      [B0(sextets[0], sextets[1]), B1(sextets[1], sextets[2]), B2(sextets[2], sextets[3])] + Bytes(sextets[4..])
  }

  lemma DropBlock(n: nat)
    requires n % 4 != 1
    ensures n == 0 || n == 2 || n == 3 || (4 <= n && (n - 4) % 4 != 1)
  {
  }

  /** The bits of the last sextet that encode nothing. */
  predicate UnusedBitsZero(sextets: seq<Sextet>)
    requires |sextets| % 4 != 1
  {
    && (|sextets| % 4 == 2 ==> sextets[|sextets| - 1] % 16 == 0)
    && (|sextets| % 4 == 3 ==> sextets[|sextets| - 1] % 4 == 0)
  }

  lemma LastBits(b: Byte)
    ensures S1(b, 0) % 16 == 0 && S2(b, 0) % 4 == 0
  {
  }

  lemma SextetsOfThree(a: Byte, b: Byte, c: Byte, rest: seq<Byte>)
    ensures Sextets([a, b, c] + rest) == [S0(a), S1(a, b), S2(b, c), S3(c)] + Sextets(rest)
  {
    hide S0, S1, S2, S3;
    assert ([a, b, c] + rest)[3..] == rest;
  }

  lemma BytesOfFour(p: Sextet, q: Sextet, r: Sextet, s: Sextet, rest: seq<Sextet>)
    requires |rest| % 4 != 1
    ensures |[p, q, r, s] + rest| % 4 == |rest| % 4
    ensures Bytes([p, q, r, s] + rest) == [B0(p, q), B1(q, r), B2(r, s)] + Bytes(rest)
    ensures UnusedBitsZero([p, q, r, s] + rest) <==> UnusedBitsZero(rest)
  {
    hide B0, B1, B2;
    assert ([p, q, r, s] + rest)[4..] == rest;
  }

  lemma ShortBytes(bytes: seq<Byte>)
    requires |bytes| < 3
    ensures |Sextets(bytes)| % 4 != 1 && Bytes(Sextets(bytes)) == bytes && UnusedBitsZero(Sextets(bytes))
  {
    hide S0, S1, S2, S3, B0, B1, B2;
    if |bytes| == 1 {
      BytesBack(bytes[0], 0, 0);
      LastBits(bytes[0]);
    } else if |bytes| == 2 {
      BytesBack(bytes[0], bytes[1], 0);
      LastBits(bytes[1]);
    }
  }

  lemma {:induction false} BytesOfSextets(bytes: seq<Byte>)
    ensures |Sextets(bytes)| % 4 != 1 && Bytes(Sextets(bytes)) == bytes && UnusedBitsZero(Sextets(bytes))
  {
    hide S0, S1, S2, S3, B0, B1, B2, Sextets, Bytes, UnusedBitsZero;
    if |bytes| < 3 {
      ShortBytes(bytes);
    } else {
      var a, b, c, rest := bytes[0], bytes[1], bytes[2], bytes[3..];
      assert bytes == [a, b, c] + rest;
      BytesOfSextets(rest);
      SextetsOfThree(a, b, c, rest);
      BytesOfFour(S0(a), S1(a, b), S2(b, c), S3(c), Sextets(rest));
      BytesBack(a, b, c);
    }
  }

  lemma ShortForms(x: Byte, y: Byte, p: Sextet, q: Sextet, r: Sextet)
    ensures Sextets([x]) == [S0(x), S1(x, 0)]
    ensures Sextets([x, y]) == [S0(x), S1(x, y), S2(y, 0)]
    ensures Bytes([p, q]) == [B0(p, q)]
    ensures Bytes([p, q, r]) == [B0(p, q), B1(q, r)]
  {
    hide S0, S1, S2, S3, B0, B1, B2;
  }

  lemma TwoSextets(p: Sextet, q: Sextet)
    ensures Sextets(Bytes([p, q])) == [p, S1(B0(p, q), 0)]
  {
    hide S0, S1, S2, S3, B0, B1, B2, Sextets, Bytes;
    SextetsBack(p, q, 0, 0);
    ShortForms(B0(p, q), 0, p, q, 0);
  }

  lemma ThreeSextets(p: Sextet, q: Sextet, r: Sextet)
    ensures Sextets(Bytes([p, q, r])) == [p, q, S2(B1(q, r), 0)]
  {
    hide S0, S1, S2, S3, B0, B1, B2, Sextets, Bytes;
    SextetsBack(p, q, r, 0);
    ShortForms(B0(p, q), B1(q, r), p, q, r);
  }

  lemma SameLast<T>(head: seq<T>, x: T, y: T)
    ensures head + [x] == head + [y] <==> x == y
  {
    assert (head + [x])[|head|] == x && (head + [y])[|head|] == y;
  }

  lemma ShortSextets(sextets: seq<Sextet>)
    requires |sextets| < 4 && |sextets| != 1
    ensures Sextets(Bytes(sextets)) == sextets <==> UnusedBitsZero(sextets)
  {
    hide S0, S1, S2, S3, B0, B1, B2, Sextets, Bytes, UnusedBitsZero;
    if |sextets| == 0 {
      assert sextets == [];
      NoBytes();
    } else if |sextets| == 2 {
      assert sextets == [sextets[0], sextets[1]];
      PairSextets(sextets[0], sextets[1]);
    } else {
      assert sextets == [sextets[0], sextets[1], sextets[2]];
      TripleSextets(sextets[0], sextets[1], sextets[2]);
    }
  }

  lemma PairSextets(p: Sextet, q: Sextet)
    ensures Sextets(Bytes([p, q])) == [p, q] <==> UnusedBitsZero([p, q])
  {
    hide S0, S1, S2, S3, B0, B1, B2, Sextets, Bytes;
    assert [p, q] == [p] + [q];
    TwoSextets(p, q);
    SextetsBack(p, q, 0, 0);
    SameLast([p], S1(B0(p, q), 0), q);
    assert [p, S1(B0(p, q), 0)] == [p] + [S1(B0(p, q), 0)];
  }

  lemma TripleSextets(p: Sextet, q: Sextet, r: Sextet)
    ensures Sextets(Bytes([p, q, r])) == [p, q, r] <==> UnusedBitsZero([p, q, r])
  {
    hide S0, S1, S2, S3, B0, B1, B2, Sextets, Bytes;
    assert [p, q, r] == [p, q] + [r];
    ThreeSextets(p, q, r);
    SextetsBack(p, q, r, 0);
    SameLast([p, q], S2(B1(q, r), 0), r);
    assert [p, q, S2(B1(q, r), 0)] == [p, q] + [S2(B1(q, r), 0)];
  }

  lemma NoBytes()
    ensures Bytes([]) == [] && Sextets([]) == [] && UnusedBitsZero([])
  {
  }

  /** Re-encoding a decoding gives the same sextets exactly when the unused bits are zero. */
  lemma {:induction false} SextetsOfBytes(sextets: seq<Sextet>)
    requires |sextets| % 4 != 1
    ensures Sextets(Bytes(sextets)) == sextets <==> UnusedBitsZero(sextets)
  {
    hide S0, S1, S2, S3, B0, B1, B2, Sextets, Bytes, UnusedBitsZero;
    if |sextets| < 4 {
      ShortSextets(sextets);
    } else {
      var p, q, r, s, tail := sextets[0], sextets[1], sextets[2], sextets[3], sextets[4..];
      assert sextets == [p, q, r, s] + tail;
      SextetsOfBytes(tail);
      BytesOfFour(p, q, r, s, tail);
      SextetsOfThree(B0(p, q), B1(q, r), B2(r, s), Bytes(tail));
      SextetsBack(p, q, r, s);
      SameTail([p, q, r, s], Sextets(Bytes(tail)), tail);
    }
  }

  lemma SameTail<T>(head: seq<T>, a: seq<T>, b: seq<T>)
    ensures head + a == head + b <==> a == b
  {
    assert (head + a)[|head|..] == a && (head + b)[|head|..] == b;
  }

  function Print(sextets: seq<Sextet>): (text: string)
    ensures |text| == |sextets| && forall i :: 0 <= i < |text| ==> text[i] == CharOf(sextets[i])
  {
    seq(|sextets|, i requires 0 <= i < |sextets| => CharOf(sextets[i]))
  }

  predicate InAlphabet(text: string) {
    forall i :: 0 <= i < |text| ==> IndexOf(text[i]).Some?
  }

  function Read(text: string): (sextets: seq<Sextet>)
    requires InAlphabet(text)
    ensures |sextets| == |text| && forall i :: 0 <= i < |sextets| ==> sextets[i] == IndexOf(text[i]).value
  {
    seq(|text|, i requires 0 <= i < |text| => IndexOf(text[i]).value)
  }

  lemma ReadPrint(sextets: seq<Sextet>)
    ensures InAlphabet(Print(sextets)) && Read(Print(sextets)) == sextets
  {
    forall i | 0 <= i < |sextets| ensures IndexOf(Print(sextets)[i]) == Some(sextets[i]) {
      AlphabetBijective(sextets[i], 'A');
    }
  }

  lemma PrintRead(text: string)
    requires InAlphabet(text)
    ensures Print(Read(text)) == text
  {
    forall i | 0 <= i < |text| ensures Print(Read(text))[i] == text[i] {
      AlphabetBijective(0, text[i]);
    }
  }

  /** urlsafe_b64encode(...).rstrip("=") */
  function Encode(bytes: seq<Byte>): string {
    Print(Sextets(bytes))
  }

  /** b64decode with the padding put back. */
  function Decode(text: string): Option<seq<Byte>> {
    if InAlphabet(text) && |text| % 4 != 1 then Some(Bytes(Read(text))) else None
  }

  /** Any bytes are decoded from their encoding. */
  lemma DecodeEncode(bytes: seq<Byte>)
    ensures Decode(Encode(bytes)) == Some(bytes)
  {
    BytesOfSextets(bytes);
    ReadPrint(Sextets(bytes));
  }

  /** A decodable text is the encoding of its bytes exactly when its unused bits are zero. */
  lemma EncodeDecode(text: string)
    requires Decode(text).Some?
    ensures Encode(Decode(text).value) == text <==> UnusedBitsZero(Read(text))
  {
    SextetsOfBytes(Read(text));
    PrintRead(text);
    if Print(Sextets(Bytes(Read(text)))) == text { ReadPrint(Sextets(Bytes(Read(text)))); }
  }

  // ---------------------------------------------------------------- which bits go where

  function Four(p: int, q: int, r: int, s: int): int { p * 262144 + q * 4096 + r * 64 + s }

  lemma TripleBits(a: Byte, b: Byte, c: Byte)
    ensures Four(S0(a), S1(a, b), S2(b, c), S3(c)) == 65536 * a as int + 256 * b as int + c as int
    ensures Four(S0(a), S1(a, b), S2(b, 0), 0) == 65536 * a as int + 256 * b as int
    ensures Four(S0(a), S1(a, 0), 0, 0) == 65536 * a as int
  {
  }

  /** The item at i, or zero past the end. */
  function Digit(digits: seq<int>, i: nat): int {
    if i < |digits| then digits[i] else 0
  }

  /** Sextets 4k to 4k+3 and bytes 3k to 3k+2 are the same 24 bits. */
  predicate BlockAgrees(bytes: seq<Byte>, sextets: seq<Sextet>, k: nat) {
    Four(Digit(sextets, 4 * k), Digit(sextets, 4 * k + 1), Digit(sextets, 4 * k + 2), Digit(sextets, 4 * k + 3))
      == 65536 * Digit(bytes, 3 * k) + 256 * Digit(bytes, 3 * k + 1) + Digit(bytes, 3 * k + 2)
  }

  /** Big-endian: the 24 bits of three bytes are the 24 bits of four sextets, what is missing
      at the end counting as zero. */
  lemma {:induction false} SameBits(bytes: seq<Byte>, k: nat)
    ensures BlockAgrees(bytes, Sextets(bytes), k)
  {
    hide S0, S1, S2, S3, Sextets, BlockAgrees;
    if k == 0 {
      FirstBlock(bytes);
    } else if |bytes| <= 3 {
      NoBlock(bytes, k);
    } else {
      SameBits(bytes[3..], k - 1);
      LaterBlock(bytes, k);
    }
  }

  lemma NoBlock(bytes: seq<Byte>, k: nat)
    requires |bytes| <= 3 && k > 0
    ensures BlockAgrees(bytes, Sextets(bytes), k)
  {
    hide S0, S1, S2, S3, Sextets, Four, Digit;
    ZeroBits();
    var s := Sextets(bytes);
    PastEnd(s, 4 * k);
    PastEnd(s, 4 * k + 1);
    PastEnd(s, 4 * k + 2);
    PastEnd(s, 4 * k + 3);
    PastEnd(bytes, 3 * k);
    PastEnd(bytes, 3 * k + 1);
    PastEnd(bytes, 3 * k + 2);
  }

  lemma PastEnd(digits: seq<int>, i: nat)
    requires |digits| <= i
    ensures Digit(digits, i) == 0
  {
  }

  lemma LaterBlock(bytes: seq<Byte>, k: nat)
    requires |bytes| > 3 && k > 0 && BlockAgrees(bytes[3..], Sextets(bytes[3..]), k - 1)
    ensures BlockAgrees(bytes, Sextets(bytes), k)
  {
    hide S0, S1, S2, S3, Four, Sextets, Digit;
    var i, j := 4 * (k - 1), 3 * (k - 1);
    assert 4 * k == 4 + i && 3 * k == 3 + j;
    DropFour(bytes, i);
    DropFour(bytes, i + 1);
    DropFour(bytes, i + 2);
    DropFour(bytes, i + 3);
    DropThree(bytes, j);
    DropThree(bytes, j + 1);
    DropThree(bytes, j + 2);
  }

  lemma DropFour(bytes: seq<Byte>, i: nat)
    requires |bytes| > 3
    ensures Digit(Sextets(bytes), 4 + i) == Digit(Sextets(bytes[3..]), i)
  {
    hide S0, S1, S2, S3;
    assert |Sextets(bytes)| == 4 + |Sextets(bytes[3..])| && Sextets(bytes)[4..] == Sextets(bytes[3..]);
  }

  lemma DropThree(bytes: seq<Byte>, i: nat)
    requires |bytes| > 3
    ensures Digit(bytes, 3 + i) == Digit(bytes[3..], i)
  {
  }

  lemma FirstBlock(bytes: seq<Byte>)
    ensures BlockAgrees(bytes, Sextets(bytes), 0)
  {
    hide S0, S1, S2, S3, Four;
    if |bytes| == 0 {
      assert Sextets(bytes) == [] && Four(0, 0, 0, 0) == 0 by { ZeroBits(); }
    } else if |bytes| == 1 {
      TripleBits(bytes[0], 0, 0);
    } else if |bytes| == 2 {
      TripleBits(bytes[0], bytes[1], 0);
    } else {
      TripleBits(bytes[0], bytes[1], bytes[2]);
    }
  }

  lemma ZeroBits()
    ensures Four(0, 0, 0, 0) == 0
  {
  }

  /** Test vectors of RFC 4648, section 10, the two characters of its section 5, and a
      hexadecimal one. */
  lemma Vectors()
    ensures Encode([102]) == "Zg" && Encode([102, 111]) == "Zm8" && Encode([102, 111, 111]) == "Zm9v"
    ensures Encode([251, 255]) == "-_8" && Hex([10, 241]) == "0af1"
  {
    assert Hex([241]) == "f1" by { assert [241][1..] == []; }
    assert [10, 241][1..] == [241];
  }

  // ---------------------------------------------------------------- tokens

  const PREFIX: string := "omfr_"

  datatype Token = Token(keyId: string, secret: seq<Byte>)

  function Printed(keyId: string, encoded: string): string {
    PREFIX + keyId + "." + encoded
  }

  /** issue_token for the drawn bytes; None is a wrong number of bytes. */
  function IssueToken(keyBytes: seq<Byte>, secret: seq<Byte>): Option<(Token, string)> {
    if |keyBytes| == 8 && |secret| == 32
    then Some((Token(Hex(keyBytes), secret), Printed(Hex(keyBytes), Encode(secret))))
    else None
  }

  /** omfr_([0-9a-f]{16})\\.([A-Za-z0-9_-]{43}) */
  predicate MatchesPattern(token: string) {
    && |token| == 65 && token[..5] == PREFIX && token[21] == '.'
    && (forall i :: 5 <= i < 21 ==> IsLowerHex(token[i]))
    && forall i :: 22 <= i < 65 ==> IndexOf(token[i]).Some?
  }

  /** parse_token; None is the authentication error. */
  function ParseToken(token: string): Option<Token> {
    if !MatchesPattern(token) then None
    else
      var keyId, encoded := token[5..21], token[22..];
      match Decode(encoded)
      case None => None
      case Some(secret) => if |secret| != 32 || Encode(secret) != encoded then None else Some(Token(keyId, secret))
  }

  /** A token is accepted exactly when it has the form and the two unused bits of its last
      character are zero. */
  lemma AcceptedExactly(token: string)
    ensures ParseToken(token).Some? <==>
              && |token| == 65 && token[..5] == "omfr_" && token[21] == '.'
              && (forall i :: 5 <= i < 21 ==> '0' <= token[i] <= '9' || 'a' <= token[i] <= 'f')
              && (forall i :: 22 <= i < 65 ==>
                    'A' <= token[i] <= 'Z' || 'a' <= token[i] <= 'z' || '0' <= token[i] <= '9' || token[i] == '-' || token[i] == '_')
              && token[64] in "AEIMQUYcgkosw048"
  {
    AcceptedForm(token);
    if |token| == 65 { LastCharacter(token[64]); }
    hide ParseToken;
  }

  /** The characters whose last two bits are zero. */
  lemma LastCharacter(c: char)
    ensures IndexOf(c).Some? && IndexOf(c).value % 4 == 0 <==> c in "AEIMQUYcgkosw048"
  {
    var last := "AEIMQUYcgkosw048";
    assert forall i :: 0 <= i < |last| ==> IndexOf(last[i]) == Some(4 * i);
    if IndexOf(c).Some? && IndexOf(c).value % 4 == 0 {
      var i := IndexOf(c).value / 4;
      AlphabetBijective(0, c);
      AlphabetBijective(0, last[i]);
      assert last[i] == c;
    }
  }

  lemma AcceptedForm(token: string)
    ensures ParseToken(token).Some? <==> MatchesPattern(token) && IndexOf(token[64]).value % 4 == 0
  {
    hide Sextets, Bytes, CharOf, IndexOf, IsLowerHex, Encode;
    if MatchesPattern(token) {
      var encoded := token[22..];
      assert InAlphabet(encoded);
      EncodeDecode(encoded);
      assert Read(encoded)[42] == IndexOf(token[64]).value;
    }
  }

  /** Whatever is issued parses back to the same key id and secret. */
  lemma ParseIssued(keyBytes: seq<Byte>, secret: seq<Byte>)
    requires |keyBytes| == 8 && |secret| == 32
    ensures IssueToken(keyBytes, secret).Some?
    ensures ParseToken(IssueToken(keyBytes, secret).value.1) == Some(IssueToken(keyBytes, secret).value.0)
  {
    var keyId, encoded := Hex(keyBytes), Encode(secret);
    var token := Printed(keyId, encoded);
    hide Hex, Sextets, Bytes, IsLowerHex, IndexOf, CharOf;
    DecodeEncode(secret);
    assert token[5..21] == keyId && token[22..] == encoded && token[..5] == PREFIX && token[21] == '.';
    assert InAlphabet(encoded);
    forall i | 22 <= i < 65 ensures IndexOf(token[i]).Some? { assert token[i] == encoded[i - 22]; }
    forall i | 5 <= i < 21 ensures IsLowerHex(token[i]) { assert token[i] == keyId[i - 5]; }
  }

  /** An accepted token is the one printed form of what it parses to: no other token
      parses to the same key id and secret, and issuing them again prints it. */
  lemma AcceptedIsCanonical(token: string, other: string)
    requires ParseToken(token).Some?
    ensures var t := ParseToken(token).value;
            && token == Printed(t.keyId, Encode(t.secret))
            && |t.keyId| == 16 && (forall i :: 0 <= i < 16 ==> IsLowerHex(t.keyId[i]))
            && IssueToken(Unhex(t.keyId), t.secret) == Some((t, token))
    ensures ParseToken(other) == ParseToken(token) ==> other == token
  {
    hide ParseToken, Encode, Hex, Unhex, IsLowerHex, Printed;
    PrintedBack(token);
    var t := ParseToken(token).value;
    HexUnhex(t.keyId);
    if ParseToken(other) == ParseToken(token) { PrintedBack(other); }
  }

  lemma PrintedBack(token: string)
    requires ParseToken(token).Some?
    ensures var t := ParseToken(token).value;
            && token == Printed(t.keyId, Encode(t.secret)) && |t.secret| == 32
            && |t.keyId| == 16 && (forall i :: 0 <= i < 16 ==> IsLowerHex(t.keyId[i]))
  {
    hide Encode, Decode, IndexOf, IsLowerHex;
    var t := ParseToken(token).value;
    assert token == token[..5] + token[5..21] + [token[21]] + token[22..];
    forall i | 0 <= i < 16 ensures IsLowerHex(t.keyId[i]) { assert t.keyId[i] == token[i + 5]; }
  }
}
