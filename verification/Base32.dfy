/**
 * Base32 (totp.ts, section 6 of RFC 4648): loops that shift a 32-bit value which is never masked,
 * against the encoding of the bits themselves. A 32-bit value is the number its bits spell.
 */
module Base32 {
  import opened Options
  import Texts

  const BASE32: string := "ABCDEFGHIJKLMNOPQRSTUVWXYZ234567"

  newtype byte = x | 0 <= x < 256

  // --- 32-bit operations ----------------------------------------------------------------------

  function Pow2(n: nat): (r: nat)
    ensures r > 0
  {
    if n == 0 then 1 else 2 * Pow2(n - 1)
  }

  /** A value followed by `n` zero bits. */
  function Doubled(value: nat, n: nat): nat {
    if n == 0 then value else 2 * Doubled(value, n - 1)
  }

  /** The low `n` bits of a value. */
  function Low(value: nat, n: nat): nat {
    if n == 0 then 0 else 2 * Low(value / 2, n - 1) + value % 2
  }

  /** Shifting left drops whatever leaves the 32 bits. */
  function ShiftLeft(value: nat, n: nat): nat {
    Low(Doubled(value, n), 32)
  }

  /** Shifting right without a sign. */
  function ShiftRight(value: nat, n: nat): nat {
    if n == 0 then value else ShiftRight(value / 2, n - 1)
  }

  /** Bit by bit. */
  function Or(a: nat, b: nat): nat
    decreases a + b
  {
    if a == 0 && b == 0 then 0
    else 2 * Or(a / 2, b / 2) + if a % 2 == 1 || b % 2 == 1 then 1 else 0
  }

  function And(a: nat, b: nat): nat
    decreases a + b
  {
    if a == 0 || b == 0 then 0
    else 2 * And(a / 2, b / 2) + if a % 2 == 1 && b % 2 == 1 then 1 else 0
  }

  // --- Bits -----------------------------------------------------------------------------------

  /** The low `n` bits of a value, the highest first. */
  function Bits(value: nat, n: nat): (bits: seq<bool>)
    ensures |bits| == n
  {
    if n == 0 then [] else Bits(value / 2, n - 1) + [value % 2 == 1]
  }

  function Number(bits: seq<bool>): nat {
    if bits == [] then 0 else 2 * Number(bits[..|bits| - 1]) + if bits[|bits| - 1] then 1 else 0
  }

  function Zeros(n: nat): (bits: seq<bool>)
    ensures |bits| == n && forall i :: 0 <= i < n ==> !bits[i]
  {
    seq(n, _ => false)
  }

  function BitsOfBytes(bytes: seq<byte>): (bits: seq<bool>)
    ensures |bits| == 8 * |bytes|
  {
    if bytes == [] then [] else Bits(bytes[0] as nat, 8) + BitsOfBytes(bytes[1..])
  }

  /** The alphabet's letter for a number below 32. */
  function LetterOf(n: nat): (c: char)
    requires n < 32
  {
    if n < 26 then 'A' + n as char else '2' + (n - 26) as char
  }

  /** The letters are those of the alphabet, in its order. */
  lemma {:induction false} AlphabetIs(n: nat)
    requires n < 32
    ensures BASE32[n] == LetterOf(n) && IndexOf(BASE32[n]) == Some(n)
  {}

  function Letter(bits: seq<bool>): char
    requires |bits| == 5
  {
    NumberBound(bits);
    LetterOf(Number(bits))
  }

  /** Bits five at a time, the last group filled up with zeros. */
  function EncodeBits(bits: seq<bool>): string {
    if bits == [] then ""
    else if |bits| < 5 then [Letter(bits + Zeros(5 - |bits|))]
    else [Letter(bits[..5])] + EncodeBits(bits[5..])
  }

  function EncodingOf(bytes: seq<byte>): string {
    EncodeBits(BitsOfBytes(bytes))
  }

  function DecodeBits(bits: seq<bool>): seq<byte> {
    if |bits| < 8 then []
    else
      NumberBound(bits[..8]);
      [Number(bits[..8]) as byte] + DecodeBits(bits[8..])
  }

  /** Where a character stands in the alphabet. */
  function IndexOf(c: char): (at: Option<nat>)
    ensures at.Some? ==> at.value < 32 && LetterOf(at.value) == c
    ensures at.None? ==> forall i :: 0 <= i < 32 ==> LetterOf(i) != c
  {
    if 'A' <= c <= 'Z' then Some((c - 'A') as nat)
    else if '2' <= c <= '7' then Some(26 + (c - '2') as nat)
    else None
  }

  predicate IsLetter(c: char) {
    IndexOf(c).Some?
  }

  predicate AllLetters(text: string) {
    forall i :: 0 <= i < |text| ==> IsLetter(text[i])
  }

  function BitsOfLetters(text: string): (bits: seq<bool>)
    requires AllLetters(text)
    ensures |bits| == 5 * |text|
  {
    if text == "" then []
    else
      Bits(IndexOf(text[0]).value, 5) + BitsOfLetters(text[1..])
  }

  function Upper(c: char): char {
    if 'a' <= c <= 'z' then c - 'a' + 'A' else c
  }

  /** Upper case, without padding and spaces. */
  function Clean(input: string): string {
    if input == "" then ""
    else if Upper(input[0]) == '=' || Texts.IsSpace(Upper(input[0])) then Clean(input[1..])
    else [Upper(input[0])] + Clean(input[1..])
  }

  /** The first character that is none of the alphabet's. */
  function FirstInvalid(text: string): (c: Option<char>)
    ensures c.None? <==> AllLetters(text)
    ensures c.Some? ==> c.value in text && !IsLetter(c.value)
  {
    if text == "" then None
    else if !IsLetter(text[0]) then Some(text[0])
    else
      var rest := FirstInvalid(text[1..]);
      assert text == [text[0]] + text[1..];
      rest
  }

  /** The bytes a text decodes to, or the character that is not base32. */
  function DecodingOf(input: string): Result<seq<byte>, char> {
    var text := Clean(input);
    var invalid := FirstInvalid(text);
    if invalid.Some? then Failure(invalid.value) else Success(DecodeBits(BitsOfLetters(text)))
  }

  lemma {:induction false} Powers()
    ensures Pow2(5) == 32 && Pow2(8) == 256
  {
    assert Pow2(4) == 16;
    assert Pow2(6) == 64;
  }

  // --- Arithmetic of bits ---------------------------------------------------------------------

  lemma {:induction false} NumberBound(bits: seq<bool>)
    ensures Number(bits) < Pow2(|bits|)
    ensures |bits| == 5 ==> Number(bits) < 32
    ensures |bits| == 8 ==> Number(bits) < 256
  {
    if bits == [] {
    } else {
      NumberBound(bits[..|bits| - 1]);
    }
    Powers();
  }

  lemma {:induction false} NumberOfBits(value: nat, n: nat)
    requires value < Pow2(n)
    ensures Number(Bits(value, n)) == value
  {
    if n == 0 {
    } else {
      NumberOfBits(value / 2, n - 1);
      assert Bits(value, n)[..n - 1] == Bits(value / 2, n - 1);
    }
  }

  lemma {:induction false} BitsOfNumber(bits: seq<bool>)
    ensures Bits(Number(bits), |bits|) == bits
  {
    if bits == [] {
    } else {
      BitsOfNumber(bits[..|bits| - 1]);
      assert bits == bits[..|bits| - 1] + [bits[|bits| - 1]];
    }
  }

  lemma {:induction false} OrDisjoint(a: nat, b: nat, n: nat)
    requires b < Pow2(n)
    ensures Or(Doubled(a, n), b) == Doubled(a, n) + b
  {
    if n == 0 { OrZero(a); } else { OrDisjoint(a, b / 2, n - 1); }
  }

  lemma {:induction false} OrZero(a: nat)
    ensures Or(a, 0) == a
  {
    if a == 0 {
    } else {
      OrZero(a / 2);
    }
  }

  /** Masking with n ones keeps the low n bits. */
  lemma {:induction false} AndMask(a: nat, n: nat)
    ensures And(a, Pow2(n) - 1) == Low(a, n)
  {
    if n > 0 && a > 0 {
      AndMask(a / 2, n - 1);
      assert (Pow2(n) - 1) / 2 == Pow2(n - 1) - 1;
    } else if n > 0 {
      LowOfZero(n);
    }
  }

  lemma {:induction false} LowOfZero(n: nat)
    ensures Low(0, n) == 0
  {
    if n == 0 {
    } else {
      LowOfZero(n - 1);
    }
  }

  lemma {:induction false} LowBound(value: nat, n: nat)
    ensures Low(value, n) < Pow2(n)
  {
    if n == 0 {
    } else {
      LowBound(value / 2, n - 1);
    }
  }

  /** What truncation drops are bits nobody looks at any more. */
  lemma {:induction false} BitsOfLow(value: nat, n: nat, m: nat)
    requires n <= m
    ensures Bits(Low(value, m), n) == Bits(value, n)
  {
    if n == 0 {
    } else {
      BitsOfLow(value / 2, n - 1, m - 1);
    }
  }

  lemma {:induction false} BitsJoined(a: nat, b: nat, n: nat, k: nat)
    requires b < Pow2(k)
    ensures Bits(Doubled(a, k) + b, n + k) == Bits(a, n) + Bits(b, k)
  {
    if k == 0 {
    } else {
      BitsJoined(a, b / 2, n, k - 1);
      assert (Doubled(a, k) + b) / 2 == Doubled(a, k - 1) + b / 2;
      assert Bits(Doubled(a, k) + b, n + k) == Bits((Doubled(a, k) + b) / 2, n + k - 1) + [b % 2 == 1];
    }
  }

  lemma {:induction false} BitsSplit(value: nat, n: nat, k: nat)
    ensures Bits(value, n + k) == Bits(ShiftRight(value, k), n) + Bits(value, k)
  {
    if k == 0 {
    } else {
      BitsSplit(value / 2, n, k - 1);
      assert Bits(value, n + k) == Bits(value / 2, n + k - 1) + [value % 2 == 1];
    }
  }

  /** The low bits of a value with zeros after it are fewer bits of the value, with those zeros. */
  lemma {:induction false} LowOfDoubled(value: nat, k: nat, width: nat)
    requires k <= width
    ensures Low(Doubled(value, k), width) == Doubled(Low(value, width - k), k)
  {
    if k == 0 {
    } else {
      LowOfDoubled(value, k - 1, width - 1);
      assert Doubled(value, k) / 2 == Doubled(value, k - 1) && Doubled(value, k) % 2 == 0;
    }
  }

  /** Shifting a group of bits in: the pending ones stay, as long as all fit 32 bits. */
  lemma {:induction false} ShiftIn(value: nat, pending: nat, x: nat, k: nat)
    requires pending + k <= 32 && x < Pow2(k)
    ensures Bits(Or(ShiftLeft(value, k), x), pending + k) == Bits(value, pending) + Bits(x, k)
  {
    var high := Low(value, 32 - k);
    LowOfDoubled(value, k, 32);
    OrDisjoint(high, x, k);
    BitsJoined(high, x, pending, k);
    BitsOfLow(value, pending, 32 - k);
  }

  /** Taking the highest group of the pending bits out. */
  lemma {:induction false} TakeOut(value: nat, pending: nat, k: nat)
    requires k <= pending
    ensures And(ShiftRight(value, pending - k), Pow2(k) - 1) < Pow2(k)
    ensures Bits(value, pending) == Bits(And(ShiftRight(value, pending - k), Pow2(k) - 1), k) + Bits(value, pending - k)
  {
    AndMask(ShiftRight(value, pending - k), k);
    LowBound(ShiftRight(value, pending - k), k);
    BitsSplit(value, k, pending - k);
    BitsOfLow(ShiftRight(value, pending - k), k, k);
  }

  /** The last pending bits, filled up with zeros from the right. */
  lemma {:induction false} FillUp(value: nat, pending: nat)
    requires pending < 5
    ensures And(ShiftLeft(value, 5 - pending), 31) < 32
    ensures Bits(And(ShiftLeft(value, 5 - pending), 31), 5) == Bits(value, pending) + Zeros(5 - pending)
  {
    var k := 5 - pending;
    Powers();
    AndMask(ShiftLeft(value, k), 5);
    LowBound(ShiftLeft(value, k), 5);
    BitsOfLow(ShiftLeft(value, k), 5, 5);
    BitsOfLow(Doubled(value, k), 5, 32);
    BitsJoined(value, 0, pending, k);
    BitsOfZero(k);
  }

  lemma {:induction false} BitsOfZero(n: nat)
    ensures Bits(0, n) == Zeros(n)
  {
    if n == 0 {
    } else {
      BitsOfZero(n - 1);
    }
  }

  // --- The loops ------------------------------------------------------------------------------

  lemma {:induction false} EncodeByte(value: nat, bits: nat, b: byte, rest: seq<byte>)
    requires bits < 5
    ensures Bits(value, bits) + BitsOfBytes([b] + rest)
         == Bits(Or(ShiftLeft(value, 8), b as nat), bits + 8) + BitsOfBytes(rest)
  {
    Powers();
    ShiftIn(value, bits, b as nat, 8);
    assert ([b] + rest)[1..] == rest;
  }

  lemma {:induction false} EncodeGroup(index: nat, rest: seq<bool>)
    requires index < 32
    ensures EncodeBits(Bits(index, 5) + rest) == [LetterOf(index)] + EncodeBits(rest)
  {
    Powers();
    NumberOfBits(index, 5);
    assert (Bits(index, 5) + rest)[..5] == Bits(index, 5) && (Bits(index, 5) + rest)[5..] == rest;
  }

  lemma {:induction false} EncodeLetter(value: nat, bits: nat, rest: seq<bool>)
    requires bits >= 5
    ensures And(ShiftRight(value, bits - 5), 31) < 32
    ensures EncodeBits(Bits(value, bits) + rest)
         == [LetterOf(And(ShiftRight(value, bits - 5), 31))] + EncodeBits(Bits(value, bits - 5) + rest)
  {
    Powers();
    TakeOut(value, bits, 5);
    var index := And(ShiftRight(value, bits - 5), 31);
    assert Bits(value, bits) + rest == Bits(index, 5) + (Bits(value, bits - 5) + rest);
    EncodeGroup(index, Bits(value, bits - 5) + rest);
  }

  method Encode(bytes: seq<byte>) returns (output: string)
    ensures output == EncodingOf(bytes)
  {
    var bits, value := 0, 0;
    output := "";
    assert bytes[0..] == bytes && Bits(value, 0) + BitsOfBytes(bytes) == BitsOfBytes(bytes);
    for i := 0 to |bytes|
      invariant 0 <= bits < 5 && value >= 0
      invariant output + EncodeBits(Bits(value, bits) + BitsOfBytes(bytes[i..])) == EncodingOf(bytes)
    {
      ghost var rest := BitsOfBytes(bytes[i + 1..]);
      assert bytes[i..] == [bytes[i]] + bytes[i + 1..];
      EncodeByte(value, bits, bytes[i], bytes[i + 1..]);
      value := Or(ShiftLeft(value, 8), bytes[i] as nat);
      bits := bits + 8;
      while bits >= 5
        invariant 0 <= bits && value >= 0
        invariant output + EncodeBits(Bits(value, bits) + rest) == EncodingOf(bytes)
      {
        EncodeLetter(value, bits, rest);
        output := output + [LetterOf(And(ShiftRight(value, bits - 5), 31))];
        bits := bits - 5;
      }
    }
    assert Bits(value, bits) + BitsOfBytes(bytes[|bytes|..]) == Bits(value, bits);
    if bits > 0 {
      FillUp(value, bits);
      Powers();
      NumberOfBits(And(ShiftLeft(value, 5 - bits), 31), 5);
      output := output + [LetterOf(And(ShiftLeft(value, 5 - bits), 31))];
    }
  }

  /** A valid prefix says nothing yet about what comes after it. */
  lemma {:induction false} FirstInvalidAt(text: string, i: nat)
    requires i < |text| && !IsLetter(text[i]) && AllLetters(text[..i])
    ensures FirstInvalid(text) == Some(text[i])
  {
    if i == 0 {
    } else {
      assert text[0] == text[..i][0];
      assert text[1..][..i - 1] == text[..i][1..];
      FirstInvalidAt(text[1..], i - 1);
    }
  }

  /** What decoding still has to give, from the pending bits and the letters to come. */
  ghost predicate Pending(clean: string, i: nat, value: nat, bits: nat, bytes: seq<byte>)
    requires i <= |clean|
  {
    AllLetters(clean) ==>
      bytes + DecodeBits(Bits(value, bits) + BitsOfLetters(clean[i..])) == DecodeBits(BitsOfLetters(clean))
  }

  lemma {:induction false} PendingNothing(clean: string)
    ensures Pending(clean, 0, 0, 0, [])
  {
    if AllLetters(clean) {
      assert clean[0..] == clean;
      assert Bits(0, 0) + BitsOfLetters(clean) == BitsOfLetters(clean);
    }
  }

  lemma {:induction false} PendingLetter(clean: string, i: nat, value: nat, bits: nat, bytes: seq<byte>, index: nat)
    requires i < |clean| && bits < 8 && Pending(clean, i, value, bits, bytes) && IndexOf(clean[i]) == Some(index)
    ensures Pending(clean, i + 1, Or(ShiftLeft(value, 5), index), bits + 5, bytes)
  {
    if AllLetters(clean) {
      BitsGoOn(clean, i, value, bits, index);
    }
  }

  lemma {:induction false} BitsGoOn(clean: string, i: nat, value: nat, bits: nat, index: nat)
    requires i < |clean| && bits < 8 && AllLetters(clean) && IndexOf(clean[i]) == Some(index)
    ensures Bits(value, bits) + BitsOfLetters(clean[i..])
         == Bits(Or(ShiftLeft(value, 5), index), bits + 5) + BitsOfLetters(clean[i + 1..])
  {
    Powers();
    ShiftIn(value, bits, index, 5);
    assert clean[i..][1..] == clean[i + 1..];
    var rest := BitsOfLetters(clean[i + 1..]);
    assert Bits(value, bits) + (Bits(index, 5) + rest) == Bits(value, bits) + Bits(index, 5) + rest;
  }

  lemma {:induction false} PendingByte(clean: string, i: nat, value: nat, bits: nat, bytes: seq<byte>)
    requires i <= |clean| && 8 <= bits && Pending(clean, i, value, bits, bytes)
    ensures And(ShiftRight(value, bits - 8), 255) < 256
    ensures Pending(clean, i, value, bits - 8, bytes + [And(ShiftRight(value, bits - 8), 255) as byte])
  {
    Powers();
    var taken := And(ShiftRight(value, bits - 8), 255);
    TakeOut(value, bits, 8);
    if AllLetters(clean) {
      var rest := BitsOfLetters(clean[i..]);
      TakeByte(value, bits, taken, rest);
      assert bytes + ([taken as byte] + DecodeBits(Bits(value, bits - 8) + rest))
          == bytes + [taken as byte] + DecodeBits(Bits(value, bits - 8) + rest);
    }
  }

  lemma {:induction false} PendingDone(clean: string, value: nat, bits: nat, bytes: seq<byte>)
    requires AllLetters(clean) && bits < 8 && Pending(clean, |clean|, value, bits, bytes)
    ensures bytes == DecodeBits(BitsOfLetters(clean))
  {
    assert Bits(value, bits) + BitsOfLetters(clean[|clean|..]) == Bits(value, bits);
  }

  method Decode(input: string) returns (r: Result<seq<byte>, char>)
    ensures r == DecodingOf(input)
  {
    var clean := Clean(input);
    var bits, value := 0, 0;
    var bytes: seq<byte> := [];
    PendingNothing(clean);
    for i := 0 to |clean|
      invariant 0 <= bits < 8 && value >= 0
      invariant AllLetters(clean[..i])
      invariant Pending(clean, i, value, bits, bytes)
    {
      var index := IndexOf(clean[i]);
      if index.None? {
        FirstInvalidAt(clean, i);
        return Failure(clean[i]);
      }
      assert clean[..i + 1] == clean[..i] + [clean[i]];
      PendingLetter(clean, i, value, bits, bytes, index.value);
      value := Or(ShiftLeft(value, 5), index.value);
      bits := bits + 5;
      if bits >= 8 {
        PendingByte(clean, i + 1, value, bits, bytes);
        bytes := bytes + [And(ShiftRight(value, bits - 8), 255) as byte];
        bits := bits - 8;
      }
    }
    assert clean[..|clean|] == clean;
    PendingDone(clean, value, bits, bytes);
    r := Success(bytes);
  }

  lemma {:induction false} TakeByte(value: nat, pending: nat, taken: nat, rest: seq<bool>)
    requires 8 <= pending && taken < 256
    requires Bits(value, pending) == Bits(taken, 8) + Bits(value, pending - 8)
    ensures DecodeBits(Bits(value, pending) + rest) == [taken as byte] + DecodeBits(Bits(value, pending - 8) + rest)
  {
    var all := Bits(value, pending) + rest;
    assert all[..8] == Bits(taken, 8);
    assert all[8..] == Bits(value, pending - 8) + rest;
    Powers();
    NumberOfBits(taken, 8);
  }

  // --- Round trips ----------------------------------------------------------------------------

  /** Every letter stands for the five bits it was chosen by. */
  lemma {:induction false} LetterBits(bits: seq<bool>)
    requires |bits| == 5
    ensures IsLetter(Letter(bits)) && Bits(IndexOf(Letter(bits)).value, 5) == bits
  {
    NumberBound(bits);
    BitsOfNumber(bits);
  }

  /** An encoding is in the alphabet, and spells the bits with fewer than five zeros after them. */
  lemma {:induction false} EncodedBits(bits: seq<bool>)
    ensures AllLetters(EncodeBits(bits))
    ensures |EncodeBits(bits)| == (|bits| + 4) / 5
    ensures BitsOfLetters(EncodeBits(bits)) == bits + Zeros(Fill(|bits|))
    decreases |bits|
  {
    if 0 < |bits| < 5 {
      LastLetter(bits);
    } else if bits != [] {
      LetterBits(bits[..5]);
      EncodedBits(bits[5..]);
      OneLetter(bits[..5], EncodeBits(bits[5..]));
      SameFillBefore(|bits|);
      assert bits == bits[..5] + bits[5..];
    }
  }

  lemma {:induction false} LastLetter(bits: seq<bool>)
    requires 0 < |bits| < 5
    ensures AllLetters(EncodeBits(bits)) && |EncodeBits(bits)| == 1
    ensures BitsOfLetters(EncodeBits(bits)) == bits + Zeros(Fill(|bits|))
  {
    LetterBits(bits + Zeros(5 - |bits|));
    OneLetter(bits + Zeros(5 - |bits|), "");
  }

  lemma {:induction false} SameFillBefore(n: nat)
    requires n >= 5
    ensures Fill(n) == Fill(n - 5)
  {}

  /** How many zeros fill up the last letter. */
  function Fill(n: nat): (zeros: nat)
    ensures zeros < 5 && (n + zeros) % 5 == 0
  {
    (5 - n % 5) % 5
  }

  lemma {:induction false} OneLetter(bits: seq<bool>, rest: string)
    requires |bits| == 5 && AllLetters(rest)
    requires IsLetter(Letter(bits)) && Bits(IndexOf(Letter(bits)).value, 5) == bits
    ensures BitsOfLetters([Letter(bits)] + rest) == bits + BitsOfLetters(rest)
  {
    assert ([Letter(bits)] + rest)[1..] == rest;
  }

  lemma {:induction false} CleanLetters(text: string)
    requires AllLetters(text)
    ensures Clean(text) == text
  {
    if text == "" {
    } else {
      assert IsLetter(text[0]);
      CleanLetters(text[1..]);
    }
  }

  /** Whole bytes come back, and fewer than eight bits after them are dropped. */
  lemma {:induction false} DecodedBytes(bytes: seq<byte>, left: seq<bool>)
    requires |left| < 8
    ensures DecodeBits(BitsOfBytes(bytes) + left) == bytes
  {
    var all := BitsOfBytes(bytes) + left;
    if bytes == [] {
    } else {
      assert all[..8] == Bits(bytes[0] as nat, 8);
      assert all[8..] == BitsOfBytes(bytes[1..]) + left;
      Powers();
      NumberOfBits(bytes[0] as nat, 8);
      DecodedBytes(bytes[1..], left);
    }
  }

  /** What was encoded decodes to itself, whatever the bytes and however many. */
  lemma {:induction false} RoundTrip(bytes: seq<byte>)
    ensures DecodingOf(EncodingOf(bytes)) == Success(bytes)
  {
    var bits := BitsOfBytes(bytes);
    EncodedBits(bits);
    CleanLetters(EncodingOf(bytes));
    DecodedBytes(bytes, Zeros(Fill(|bits|)));
  }

  /** The letters in turn, each in either case, with padding and white space anywhere between. */
  predicate Types(input: string, letters: string) {
    if input == "" then letters == ""
    else if input[0] == '=' || Texts.IsSpace(input[0]) then Types(input[1..], letters)
    else
      && letters != ""
      && (input[0] == letters[0] || ('a' <= input[0] <= 'z' && input[0] as int - 32 == letters[0] as int))
      && Types(input[1..], letters[1..])
  }

  lemma {:induction false} CleanMeansTyped(input: string, letters: string)
    requires AllLetters(letters)
    ensures Clean(input) == letters <==> Types(input, letters)
  {
    if input == "" {
    } else if Upper(input[0]) == '=' || Texts.IsSpace(Upper(input[0])) {
      CleanMeansTyped(input[1..], letters);
    } else if letters != "" {
      CleanMeansTyped(input[1..], letters[1..]);
      assert letters == [letters[0]] + letters[1..];
      assert IsLetter(letters[0]);
    }
  }

  /** In either case, with padding and white space anywhere, it still does. */
  lemma {:induction false} RoundTripHoweverTyped(input: string, bytes: seq<byte>)
    requires Types(input, EncodingOf(bytes))
    ensures DecodingOf(input) == Success(bytes)
  {
    EncodedBits(BitsOfBytes(bytes));
    CleanMeansTyped(input, EncodingOf(bytes));
    RoundTrip(bytes);
    EncodedBits(BitsOfBytes(bytes));
    CleanLetters(EncodingOf(bytes));
  }

  /** A letter of the alphabet in either case, padding, or white space. */
  predicate CanBeTyped(c: char) {
    'A' <= c <= 'Z' || 'a' <= c <= 'z' || '2' <= c <= '7' || c == '=' || Texts.IsSpace(c)
  }

  predicate AllCanBeTyped(input: string) {
    forall i :: 0 <= i < |input| ==> CanBeTyped(input[i])
  }

  /** A text is decoded exactly when nothing else is in it; if not, the first that is so is named. */
  lemma {:induction false} FirstBadLetterIsNamed(input: string)
    ensures DecodingOf(input).Success? <==> AllCanBeTyped(input)
    ensures DecodingOf(input).Failure? ==>
        exists i :: 0 <= i < |input| && input[i] == DecodingOf(input).error && !CanBeTyped(input[i])
                    && AllCanBeTyped(input[..i])
  {
    if input == "" {
    } else {
      FirstBadLetterIsNamed(input[1..]);
      assert input == [input[0]] + input[1..];
      if !CanBeTyped(input[0]) {
        assert input[..0] == "";
      } else if DecodingOf(input).Failure? {
        var i :| 0 <= i < |input[1..]| && input[1..][i] == DecodingOf(input[1..]).error && !CanBeTyped(input[1..][i])
                 && AllCanBeTyped(input[1..][..i]);
        assert input[..i + 1] == [input[0]] + input[1..][..i];
        assert input[i + 1] == input[1..][i];
      }
    }
  }

  /** The bits of whole bytes. */
  function Kept(bits: seq<bool>): seq<bool> {
    bits[..|bits| - |bits| % 8]
  }

  lemma {:induction false} KeptBefore(bits: seq<bool>)
    requires |bits| >= 8
    ensures Kept(bits) == bits[..8] + Kept(bits[8..]) && |bits| / 8 == 1 + |bits[8..]| / 8
  {
    assert (|bits| - 8) % 8 == |bits| % 8;
  }

  lemma {:induction false} DecodedBits(bits: seq<bool>)
    ensures |DecodeBits(bits)| == |bits| / 8
    ensures BitsOfBytes(DecodeBits(bits)) == Kept(bits)
    decreases |bits|
  {
    if |bits| >= 8 {
      DecodedBits(bits[8..]);
      NumberBound(bits[..8]);
      BitsOfNumber(bits[..8]);
      KeptBefore(bits);
    }
  }

  lemma {:induction false} SameLetters(a: string, b: string)
    requires AllLetters(a) && AllLetters(b)
    requires BitsOfLetters(a) == BitsOfLetters(b)
    ensures a == b
  {
    if a == "" {
    } else {
      var m, n := IndexOf(a[0]).value, IndexOf(b[0]).value;
      assert Bits(m, 5) == BitsOfLetters(a)[..5] == BitsOfLetters(b)[..5] == Bits(n, 5);
      Powers();
      NumberOfBits(m, 5);
      NumberOfBits(n, 5);
      assert BitsOfLetters(a[1..]) == BitsOfLetters(a)[5..] == BitsOfLetters(b[1..]);
      SameLetters(a[1..], b[1..]);
    }
  }

  /** After the last whole byte fewer than five bits are left, and all of them are zero. */
  predicate Canonical(bits: seq<bool>) {
    |bits| % 8 < 5 && bits[|bits| - |bits| % 8..] == Zeros(|bits| % 8)
  }

  lemma {:induction false} LettersDecode(text: string)
    requires AllLetters(text)
    ensures DecodingOf(text) == Success(DecodeBits(BitsOfLetters(text)))
  {
    CleanLetters(text);
  }

  lemma {:induction false} KeptOrNot(text: string, bits: seq<bool>)
    requires AllLetters(text) && bits == BitsOfLetters(text)
    ensures EncodeBits(Kept(bits)) == text <==> Canonical(bits)
  {
    EncodingIs(Kept(bits), text);
    SameFill(Kept(bits), bits, |bits| % 8);
  }

  /** The other way round, letters come back exactly when they could have been an encoding. */
  lemma {:induction false} LettersRoundTrip(text: string)
    requires AllLetters(text)
    ensures DecodingOf(text).Success?
    ensures EncodingOf(DecodingOf(text).value) == text <==> Canonical(BitsOfLetters(text))
  {
    var bits := BitsOfLetters(text);
    LettersDecode(text);
    DecodedBits(bits);
    KeptOrNot(text, bits);
  }

  lemma {:induction false} EncodingIs(kept: seq<bool>, text: string)
    requires AllLetters(text)
    ensures EncodeBits(kept) == text <==> kept + Zeros(Fill(|kept|)) == BitsOfLetters(text)
  {
    EncodedBits(kept);
    if kept + Zeros(Fill(|kept|)) == BitsOfLetters(text) { SameLetters(EncodeBits(kept), text); }
  }

  /** Bits filled up with fewer than five zeros to a multiple of five, in one way only. */
  lemma {:induction false} SameFill(kept: seq<bool>, bits: seq<bool>, left: nat)
    requires left <= |bits| && |bits| % 5 == 0 && kept == bits[..|bits| - left]
    ensures kept + Zeros(Fill(|kept|)) == bits <==> left < 5 && bits[|bits| - left..] == Zeros(left)
  {
    assert bits == kept + bits[|bits| - left..];
    if kept + Zeros(Fill(|kept|)) == bits {
      assert left == Fill(|kept|);
      assert bits[|kept|..] == Zeros(left);
    }
    if left < 5 {
      assert |kept| + left == |bits|;
      SameRest(|kept|, left, Fill(|kept|));
    }
  }

  lemma {:induction false} SameRest(n: nat, a: nat, b: nat)
    requires a < 5 && b < 5 && (n + a) % 5 == 0 && (n + b) % 5 == 0
    ensures a == b
  {}
}
