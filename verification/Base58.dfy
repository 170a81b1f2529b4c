/** Models src/lib/multibase.ts: base58btc, the encoding under every did:key that ArcID builds.

    `Encode` is the reference meaning of the encoding (leading zeros kept, the rest converted between
    positional systems), `EncodeBytes` is the source's nested carry loop, and `Decode` is the inverse
    that the source does not ship but its callers rely on. */
module Base58 {
  import opened Options
  import opened Powers

  type Byte = b: int | 0 <= b < 256

  const ALPHABET := "123456789" + "ABCDEFGH" + "JKLMN" + "PQRSTUVWXYZ" + "abcdefghijk" + "mnopqrstuvwxyz"

  // ---------------------------------------------------------------------------------------------
  // Positional numbers
  // ---------------------------------------------------------------------------------------------

  ghost predicate DigitsBelow(s: seq<int>, base: nat) {
    forall i | 0 <= i < |s| :: 0 <= s[i] < base
  }

  /** The number written by `s` with its least significant digit first, the order of `digits`. */
  ghost function LittleValue(s: seq<int>, base: nat): int {
    if s == [] then 0 else s[0] + base * LittleValue(s[1..], base)
  }

  /** The number written by `s` with its most significant digit first, the order of the input bytes. */
  function BigValue(s: seq<int>, base: nat): int {
    if s == [] then 0 else base * BigValue(s[..|s| - 1], base) + s[|s| - 1]
  }

  /** The digits of `n`, least significant first, without a superfluous top zero. */
  function Digits(n: nat, base: nat): (s: seq<int>)
    requires 2 <= base
    ensures DigitsBelow(s, base)
    ensures LittleValue(s, base) == n
    ensures s != [] ==> s[|s| - 1] != 0
    decreases n
  {
    if n == 0 then [] else
      DivModFacts(n, base);
      [n % base] + Digits(n / base, base)
  }

  function Reverse(s: seq<int>): (r: seq<int>)
    ensures |r| == |s|
    ensures forall i | 0 <= i < |s| :: r[i] == s[|s| - 1 - i]
  {
    if s == [] then [] else [s[|s| - 1]] + Reverse(s[..|s| - 1])
  }

  function LeadingZeros(s: seq<int>): (n: nat)
    ensures n <= |s|
    ensures forall i | 0 <= i < n :: s[i] == 0
    ensures n < |s| ==> s[n] != 0
  {
    if s == [] || s[0] != 0 then 0 else 1 + LeadingZeros(s[1..])
  }

  lemma DivModFacts(n: nat, base: nat)
    requires 2 <= base && 0 < n
    ensures 0 <= n / base < n
    ensures n == n % base + base * (n / base)
    ensures 0 <= n % base < base
    ensures n / base == 0 ==> n % base != 0
  {
  }

  lemma DivModUnique(q: nat, r: nat, base: nat)
    requires r < base
    ensures (r + base * q) / base == q
    ensures (r + base * q) % base == r
  {
    var n := r + base * q;
    var d := n / base - q;
    assert base * d == r - n % base by {
      assert n == base * (n / base) + n % base;
      assert base * d == base * (n / base) - base * q;
    }
    MulCancelLess(base, d, 1);
    MulCancelLess(base, -1, d);
  }

  lemma Distribute(b: int, x: int, p: int, v: int)
    ensures b * (x + p * v) == b * x + (b * p) * v
  {
  }

  lemma {:induction false} LittleValueConcat(s: seq<int>, t: seq<int>, base: nat)
    ensures LittleValue(s + t, base) == LittleValue(s, base) + Pow(base, |s|) * LittleValue(t, base)
    decreases |s|
  {
    if s == [] {
      assert s + t == t;
    } else {
      assert (s + t)[1..] == s[1..] + t;
      LittleValueConcat(s[1..], t, base);
      Distribute(base, LittleValue(s[1..], base), Pow(base, |s| - 1), LittleValue(t, base));
    }
  }

  lemma {:induction false} LittleValueAppend(s: seq<int>, d: int, base: nat)
    ensures LittleValue(s + [d], base) == LittleValue(s, base) + Pow(base, |s|) * d
  {
    LittleValueConcat(s, [d], base);
    assert LittleValue([d], base) == d + base * LittleValue([], base) == d;
  }

  lemma {:induction false} BigIsReversedLittle(s: seq<int>, base: nat)
    ensures BigValue(s, base) == LittleValue(Reverse(s), base)
    decreases |s|
  {
    if s != [] {
      var init := s[..|s| - 1];
      BigIsReversedLittle(init, base);
      assert Reverse(s)[1..] == Reverse(init);
    }
  }

  lemma {:induction false} LittleValueNat(s: seq<int>, base: nat)
    requires DigitsBelow(s, base)
    ensures 0 <= LittleValue(s, base) < Pow(base, |s|)
    decreases |s|
  {
    if s != [] {
      LittleValueNat(s[1..], base);
      var v, p := LittleValue(s[1..], base), Pow(base, |s| - 1);
      MulMonotone(base, 0, v);
      MulMonotone(base, v, p - 1);
      assert base * (p - 1) == base * p - base;
    }
  }

  /** A digit string without a superfluous top zero is the only one of its value. */
  lemma {:induction false} CanonicalDigits(s: seq<int>, base: nat)
    requires 2 <= base && DigitsBelow(s, base)
    requires s != [] ==> s[|s| - 1] != 0
    ensures LittleValue(s, base) >= 0
    ensures Digits(LittleValue(s, base), base) == s
    decreases |s|
  {
    LittleValueNat(s, base);
    if s != [] {
      var t := s[1..];
      CanonicalDigits(t, base);
      LittleValueNat(t, base);
      var v := LittleValue(t, base);
      DivModUnique(v, s[0], base);
      assert v == 0 <==> t == [];
      MulMonotone(base, 0, v);
      if t != [] {
        MulMonotone(base, 1, v);
      }
      assert LittleValue(s, base) != 0;
      assert s == [s[0]] + t;
    }
  }

  // ---------------------------------------------------------------------------------------------
  // Conversion between positional systems that keeps leading zeros
  // ---------------------------------------------------------------------------------------------

  function Zeros(n: nat): (s: seq<int>)
    ensures |s| == n && forall i | 0 <= i < n :: s[i] == 0
  {
    seq(n, _ => 0)
  }

  lemma BigValueNat(s: seq<int>, base: nat)
    requires DigitsBelow(s, base)
    ensures 0 <= BigValue(s, base) < Pow(base, |s|)
  {
    BigIsReversedLittle(s, base);
    LittleValueNat(Reverse(s), base);
  }

  /** The digits of `n`, most significant first, without a superfluous top zero. */
  function BigDigits(n: nat, base: nat): (s: seq<int>)
    requires 2 <= base
    ensures DigitsBelow(s, base)
    ensures BigValue(s, base) == n
    ensures s != [] ==> s[0] != 0
  {
    var s := Reverse(Digits(n, base));
    BigIsReversedLittle(s, base);
    assert Reverse(s) == Digits(n, base);
    s
  }

  function Convert(s: seq<int>, from: nat, to: nat): (r: seq<int>)
    requires 2 <= to && DigitsBelow(s, from)
    ensures DigitsBelow(r, to)
  {
    BigValueNat(s, from);
    Zeros(LeadingZeros(s)) + BigDigits(BigValue(s, from), to)
  }

  lemma {:induction false} BigValueSkipsZeros(n: nat, s: seq<int>, base: nat)
    ensures BigValue(Zeros(n) + s, base) == BigValue(s, base)
    decreases n + |s|
  {
    var z := Zeros(n) + s;
    if s != [] {
      assert z[..|z| - 1] == Zeros(n) + s[..|s| - 1];
      BigValueSkipsZeros(n, s[..|s| - 1], base);
    } else if n != 0 {
      assert z[..|z| - 1] == Zeros(n - 1) + s;
      BigValueSkipsZeros(n - 1, s, base);
    }
  }

  lemma {:induction false} LeadingZerosOfPadded(n: nat, s: seq<int>)
    requires s != [] ==> s[0] != 0
    ensures LeadingZeros(Zeros(n) + s) == n
  {
    if n == 0 {
      assert Zeros(n) + s == s;
    } else {
      assert (Zeros(n) + s)[1..] == Zeros(n - 1) + s;
      LeadingZerosOfPadded(n - 1, s);
    }
  }

  lemma {:induction false} ConvertPadded(z: nat, body: seq<int>, from: nat, to: nat)
    requires 2 <= to && DigitsBelow(body, from) && 1 <= from
    requires body != [] ==> body[0] != 0
    ensures BigValue(body, from) >= 0
    ensures Convert(Zeros(z) + body, from, to) == Zeros(z) + BigDigits(BigValue(body, from), to)
  {
    BigValueNat(body, from);
    LeadingZerosOfPadded(z, body);
    BigValueSkipsZeros(z, body, from);
  }

  lemma {:induction false} BigDigitsOfValue(body: seq<int>, base: nat)
    requires 2 <= base && DigitsBelow(body, base)
    requires body != [] ==> body[0] != 0
    ensures BigValue(body, base) >= 0
    ensures BigDigits(BigValue(body, base), base) == body
  {
    BigIsReversedLittle(body, base);
    CanonicalDigits(Reverse(body), base);
    assert Reverse(Reverse(body)) == body;
  }

  /** Converting there and back is the identity, for every digit string and every pair of bases. */
  lemma {:induction false} ConvertUndoesConvert(s: seq<int>, from: nat, to: nat)
    requires 2 <= from && 2 <= to && DigitsBelow(s, from)
    ensures Convert(Convert(s, from, to), to, from) == s
  {
    var z := LeadingZeros(s);
    var body := s[z..];
    assert s == Zeros(z) + body;
    ConvertPadded(z, body, from, to);
    ConvertPadded(z, BigDigits(BigValue(body, from), to), to, from);
    BigDigitsOfValue(body, from);
  }

  lemma {:induction false} FewDigits(n: nat, base: nat, k: nat)
    requires 2 <= base && n < Pow(base, k)
    ensures |Digits(n, base)| <= k
    decreases k
  {
    if n != 0 {
      DivModFacts(n, base);
      MulCancelLess(base, n / base, Pow(base, k - 1));
      FewDigits(n / base, base, k - 1);
    }
  }

  // ---------------------------------------------------------------------------------------------
  // base58btc
  // ---------------------------------------------------------------------------------------------

  function ToChars(digits: seq<int>): (s: string)
    requires DigitsBelow(digits, 58)
    ensures |s| == |digits|
    ensures forall i | 0 <= i < |s| :: s[i] == ALPHABET[digits[i]]
  {
    seq(|digits|, i requires 0 <= i < |digits| => ALPHABET[digits[i]])
  }

  /** The reference meaning of base58btc. */
  function Encode(bytes: seq<Byte>): string {
    ToChars(Convert(bytes, 256, 58))
  }

  function IndexOf(c: char, alphabet: string): (i: int)
    ensures -1 <= i < |alphabet|
    ensures i >= 0 ==> alphabet[i] == c
    ensures i == -1 <==> c !in alphabet
  {
    if alphabet == "" then -1
    else if alphabet[0] == c then 0
    else var i := IndexOf(c, alphabet[1..]); if i == -1 then -1 else i + 1
  }

  /** The inverse of `Encode`; None when a character is outside the alphabet. */
  function Decode(s: string): (r: Option<seq<Byte>>)
    ensures r.None? <==> exists i :: 0 <= i < |s| && s[i] !in ALPHABET
  {
    if exists i :: 0 <= i < |s| && s[i] !in ALPHABET then None else
      Some(AsBytes(Convert(seq(|s|, i requires 0 <= i < |s| => IndexOf(s[i], ALPHABET)), 58, 256)))
  }

  function AsBytes(s: seq<int>): (r: seq<Byte>)
    requires DigitsBelow(s, 256)
    ensures r == s
  {
    seq(|s|, i requires 0 <= i < |s| => s[i] as Byte)
  }

  lemma {:induction false} AlphabetAscends(i: nat, j: nat)
    requires i < j < 58
    ensures ALPHABET[i] < ALPHABET[j]
    decreases j
  {
    assert forall k | 0 <= k < 57 :: ALPHABET[k] < ALPHABET[k + 1];
    if i + 1 < j { AlphabetAscends(i, j - 1); }
  }

  lemma AlphabetIsInjective(i: nat, j: nat)
    requires i < 58 && j < 58 && ALPHABET[i] == ALPHABET[j]
    ensures i == j
  {
    if i < j { AlphabetAscends(i, j); }
    if j < i { AlphabetAscends(j, i); }
  }

  /** The digit a character stands for: digits, capitals and small letters in the order of their codes, without
      '0', 'O', 'I' and 'l', which are left out as they are easily confused. */
  function Rank58(c: char): int {
    if '1' <= c <= '9' then c as int - '1' as int
    else if 'A' <= c <= 'H' then c as int - 'A' as int + 9
    else if 'J' <= c <= 'N' then c as int - 'J' as int + 17
    else if 'P' <= c <= 'Z' then c as int - 'P' as int + 22
    else if 'a' <= c <= 'k' then c as int - 'a' as int + 33
    else if 'm' <= c <= 'z' then c as int - 'm' as int + 44
    else -1
  }

  predicate IsBase58(c: char) {
    ('0' <= c <= '9' || 'A' <= c <= 'Z' || 'a' <= c <= 'z') && c != '0' && c != 'O' && c != 'I' && c != 'l'
  }

  lemma RankInAlphabet(i: nat)
    requires i < 58
    ensures Rank58(ALPHABET[i]) == i && IsBase58(ALPHABET[i])
  {
    assert |ALPHABET| == 58;
    assert forall k | 0 <= k < 33 :: Rank58(ALPHABET[k]) == k;
    assert forall k | 33 <= k < 58 :: Rank58(ALPHABET[k]) == k;
  }

  lemma AlphabetAtRank(c: char)
    requires IsBase58(c)
    ensures 0 <= Rank58(c) < 58 && ALPHABET[Rank58(c)] == c
  {
    if '1' <= c <= '9' {
      assert forall k | 0 <= k < 9 :: ALPHABET[k] as int == k + '1' as int;
    } else if 'A' <= c <= 'Z' {
      assert forall k | 9 <= k < 17 :: ALPHABET[k] as int == k - 9 + 'A' as int;
      assert forall k | 17 <= k < 22 :: ALPHABET[k] as int == k - 17 + 'J' as int;
      assert forall k | 22 <= k < 33 :: ALPHABET[k] as int == k - 22 + 'P' as int;
    } else {
      assert forall k | 33 <= k < 44 :: ALPHABET[k] as int == k - 33 + 'a' as int;
      assert forall k | 44 <= k < 58 :: ALPHABET[k] as int == k - 44 + 'm' as int;
    }
  }

  /** The alphabet: 58 characters in ascending order, exactly the digits and letters without the four. */
  lemma AlphabetIsBase58(i: nat, j: nat, c: char)
    ensures |ALPHABET| == 58
    ensures i < j < 58 ==> ALPHABET[i] < ALPHABET[j]
    ensures c in ALPHABET <==> ('0' <= c <= '9' || 'A' <= c <= 'Z' || 'a' <= c <= 'z') && c !in "0OIl"
  {
    if i < j < 58 { AlphabetAscends(i, j); }
    if c in ALPHABET {
      var k :| 0 <= k < 58 && ALPHABET[k] == c;
      RankInAlphabet(k);
    }
    if IsBase58(c) { AlphabetAtRank(c); }
  }

  /** The encoded string, its characters read as digits of base 58 with the most significant first, is the number
      that the bytes are in base 256; with the leading zeros counted (LeadingOnes), this determines it. */
  lemma EncodedNumber(bytes: seq<Byte>)
    ensures var s := Encode(bytes);
      BigValue(seq(|s|, i requires 0 <= i < |s| => Rank58(s[i])), 58) == BigValue(bytes, 256)
  {
    var s, digits, z := Encode(bytes), Convert(bytes, 256, 58), LeadingZeros(bytes);
    var ranks := seq(|s|, i requires 0 <= i < |s| => Rank58(s[i]));
    forall i | 0 <= i < |s| ensures ranks[i] == digits[i] { RankInAlphabet(digits[i]); }
    assert ranks == digits;
    BigValueNat(bytes, 256);
    BigValueSkipsZeros(z, BigDigits(BigValue(bytes, 256), 58), 58);
  }

  lemma EncodesAs(bytes: seq<Byte>, z: nat, body: seq<Byte>, digits: seq<int>)
    requires bytes == Zeros(z) + body && (body != [] ==> body[0] != 0)
    requires BigValue(body, 256) >= 0 && BigDigits(BigValue(body, 256), 58) == digits
    ensures Encode(bytes) == ToChars(Zeros(z) + digits)
  {
    ConvertPadded(z, body, 256, 58);
  }

  lemma KnownNumbers()
    ensures BigValue([], 256) == 0 && BigValue([17], 256) == 17 && BigValue([1, 0], 256) == 256
  {
    assert [17][..0] == [] && [1][..0] == [] && [1, 0][..1] == [1];
    assert BigValue([1], 256) == 1;
  }

  /** Some encodings. */
  lemma KnownEncodings()
    ensures Encode([0]) == "1" && Encode([17]) == "J" && Encode([0, 1, 0]) == "15R"
  {
    KnownNumbers();
    KnownDigits();
    EncodesAs([0], 1, [], []);
    EncodesAs([17], 0, [17], [17]);
    EncodesAs([0, 1, 0], 1, [1, 0], [4, 24]);
    assert Zeros(1) + [] == [0] && Zeros(0) + [17] == [17] && Zeros(1) + [4, 24] == [0, 4, 24];
    KnownLetters();
    assert ToChars([0]) == "1" && ToChars([17]) == "J" && ToChars([0, 4, 24]) == "15R";
  }

  lemma KnownLetters()
    ensures ALPHABET[0] == '1' && ALPHABET[4] == '5' && ALPHABET[17] == 'J' && ALPHABET[24] == 'R'
  {
  }

  lemma KnownDigits()
    ensures BigDigits(0, 58) == [] && BigDigits(17, 58) == [17] && BigDigits(256, 58) == [4, 24]
  {
    assert Digits(17, 58) == [17] + Digits(0, 58);
    assert Digits(256, 58) == [24] + Digits(4, 58);
    assert Digits(4, 58) == [4] + Digits(0, 58);
  }

  /** Decoding undoes encoding, for every byte sequence. */
  lemma {:induction false} DecodeUndoesEncode(bytes: seq<Byte>)
    ensures Decode(Encode(bytes)) == Some(bytes)
  {
    var digits := Convert(bytes, 256, 58);
    var s := Encode(bytes);
    var back := seq(|s|, i requires 0 <= i < |s| => IndexOf(s[i], ALPHABET));
    forall i | 0 <= i < |s| ensures s[i] in ALPHABET && back[i] == digits[i] {
      assert s[i] == ALPHABET[digits[i]];
      AlphabetIsInjective(back[i], digits[i]);
    }
    assert back == digits;
    ConvertUndoesConvert(bytes, 256, 58);
  }

  /** ... and encoding undoes decoding, so base58btc is a bijection onto the strings over its alphabet. */
  lemma {:induction false} EncodeUndoesDecode(s: string)
    requires Decode(s).Some?
    ensures Encode(Decode(s).value) == s
  {
    var digits := seq(|s|, i requires 0 <= i < |s| => IndexOf(s[i], ALPHABET));
    assert DigitsBelow(digits, 58);
    ConvertUndoesConvert(digits, 58, 256);
    assert Convert(Decode(s).value, 256, 58) == digits;
  }

  lemma EncodeIsInjective(a: seq<Byte>, b: seq<Byte>)
    requires Encode(a) == Encode(b)
    ensures a == b
  {
    DecodeUndoesEncode(a);
    DecodeUndoesEncode(b);
  }

  /** Each leading zero byte is one leading '1', and no other leading '1' appears. */
  lemma LeadingOnes(bytes: seq<Byte>)
    ensures LeadingZeros(bytes) <= |Encode(bytes)|
    ensures forall i | 0 <= i < LeadingZeros(bytes) :: Encode(bytes)[i] == '1'
    ensures LeadingZeros(bytes) < |Encode(bytes)| ==> Encode(bytes)[LeadingZeros(bytes)] != '1'
  {
  }

  lemma {:induction false} TwoBytesFitThreeDigits(m: nat)
    ensures Pow(256, 2 * m) <= Pow(58, 3 * m)
  {
    if m != 0 {
      TwoBytesFitThreeDigits(m - 1);
      var a, b := Pow(256, 2 * m - 2), Pow(58, 3 * m - 3);
      assert Pow(256, 2 * m) == 256 * (256 * a);
      assert Pow(58, 3 * m) == 58 * (58 * (58 * b)) by {
        assert Pow(58, 3 * m) == 58 * Pow(58, 3 * m - 1);
        assert Pow(58, 3 * m - 1) == 58 * Pow(58, 3 * m - 2);
      }
    }
  }

  /** n bytes after the leading zeros take at most 3 * ceil(n / 2) characters. */
  lemma {:induction false} EncodedLength(bytes: seq<Byte>)
    ensures LeadingZeros(bytes) <= |Encode(bytes)|
    ensures |Encode(bytes)| <= LeadingZeros(bytes) + 3 * ((|bytes| - LeadingZeros(bytes) + 1) / 2)
  {
    var z := LeadingZeros(bytes);
    var body := bytes[z..];
    var n := |body|;
    var m := (n + 1) / 2;
    assert bytes == Zeros(z) + body;
    BigValueSkipsZeros(z, body, 256);
    BigValueNat(body, 256);
    PowMonotone(256, n, 2 * m);
    TwoBytesFitThreeDigits(m);
    FewDigits(BigValue(body, 256), 58, 3 * m);
  }

  // ---------------------------------------------------------------------------------------------
  // The source's loop
  // ---------------------------------------------------------------------------------------------

  /** ECMAScript ToInt32, applied by `<<` and `| 0`. */
  function ToInt32(n: int): int {
    var m := n % 0x1_0000_0000;
    if m >= 0x8000_0000 then m - 0x1_0000_0000 else m
  }

  lemma SmallInt32(n: int)
    requires 0 <= n < 0x8000_0000
    ensures ToInt32(n) == n
  {
  }

  /** The number split across the digits already rewritten, the carry and the digits still to read. */
  ghost function Pending(done: seq<int>, carry: int, rest: seq<int>): int {
    LittleValue(done, 58) + Pow(58, |done|) * (carry + 256 * LittleValue(rest, 58))
  }

  lemma {:induction false} FoldStep(done: seq<int>, carry: int, rest: seq<int>, low: int, next: int)
    requires rest != [] && next * 58 + low == carry + 256 * rest[0]
    ensures Pending(done + [low], next, rest[1..]) == Pending(done, carry, rest)
  {
    LittleValueAppend(done, low, 58);
    var p, v := Pow(58, |done|), LittleValue(rest[1..], 58);
    calc {
      p * low + (58 * p) * (next + 256 * v);
      p * (low + 58 * (next + 256 * v));
      p * (carry + 256 * (rest[0] + 58 * v));
    }
  }

  lemma {:induction false} PushStep(digits: seq<int>, carry: nat)
    ensures Pending(digits + [carry % 58], carry / 58, []) == Pending(digits, carry, [])
  {
    LittleValueAppend(digits, carry % 58, 58);
    var p := Pow(58, |digits|);
    calc {
      p * (carry % 58) + (58 * p) * (carry / 58);
      p * (carry % 58 + 58 * (carry / 58));
      p * carry;
    }
  }

  /** The inner `for`: the existing digits are rewritten in place. The carry never leaves a byte, so `<< 8`
      and `| 0` stay far inside 32 bits. */
  method Multiply(digits: seq<int>, b: Byte) returns (r: seq<int>, carry: int)
    requires digits != [] && DigitsBelow(digits, 58)
    requires digits == [0] || digits[|digits| - 1] != 0
    ensures |r| == |digits| && DigitsBelow(r, 58) && 0 <= carry <= 255
    ensures Pending(r, carry, []) == Pending([], b, digits)
    ensures if digits == [0] then r[0] == b % 58 && carry == b / 58 else carry > 0
  {
    r, carry := digits, b;
    var j := 0;
    assert digits[0..] == digits && r[..0] == [];
    while j < |r|
      invariant 0 <= j <= |r| == |digits|
      invariant 0 <= carry <= 255
      invariant DigitsBelow(r, 58)
      invariant r[j..] == digits[j..]
      invariant Pending(r[..j], carry, digits[j..]) == Pending([], b, digits)
      invariant digits == [0] && j == 1 ==> r[0] == b % 58 && carry == b / 58
      invariant digits != [0] && j == |r| ==> carry > 0
    {
      ghost var c, d, before := carry, digits[j], r;
      assert r[j] == r[j..][0] == d;
      SmallInt32(r[j] * 256);
      carry := carry + ToInt32(r[j] * 256);
      SmallInt32(carry / 58);
      r := r[j := carry % 58];
      carry := ToInt32(carry / 58);
      FoldStep(before[..j], c, digits[j..], r[j], carry);
      assert r[..j + 1] == before[..j] + [r[j]];
      assert digits[j..][1..] == digits[j + 1..] == r[j + 1..];
      j := j + 1;
    }
    assert r[..j] == r && digits[j..] == [];
  }

  /** One byte folded into the digits: the inner `for`, then the `while (carry)`, which pushes two digits
      at most. */
  method FoldByte(digits: seq<int>, b: Byte) returns (r: seq<int>)
    requires digits != [] && DigitsBelow(digits, 58)
    requires digits == [0] || digits[|digits| - 1] != 0
    ensures DigitsBelow(r, 58)
    ensures LittleValue(r, 58) == 256 * LittleValue(digits, 58) + b
    ensures |digits| <= |r| <= |digits| + 2
    ensures r == [0] || r[|r| - 1] != 0
  {
    var carry;
    r, carry := Multiply(digits, b);
    while carry != 0
      invariant 0 <= carry <= 255
      invariant DigitsBelow(r, 58)
      invariant Pending(r, carry, []) == Pending([], b, digits)
      invariant |digits| <= |r| <= |digits| + 2
      invariant |r| == |digits| + 1 ==> carry <= 4
      invariant |r| == |digits| + 2 ==> carry == 0
      invariant carry == 0 ==> r == [0] || r[|r| - 1] != 0
      decreases carry
    {
      PushStep(r, carry);
      SmallInt32(carry / 58);
      r := r + [carry % 58];
      carry := ToInt32(carry / 58);
    }
  }

  /** The output loop: the '1's of the leading zeros, then the digits from the top one down. */
  method Render(leadingZeros: nat, digits: seq<int>) returns (s: string)
    requires DigitsBelow(digits, 58)
    ensures s == ToChars(Zeros(leadingZeros) + Reverse(digits))
  {
    s := seq(leadingZeros, _ => '1');
    var i := |digits| - 1;
    while i >= 0
      invariant -1 <= i < |digits|
      invariant |s| == leadingZeros + |digits| - 1 - i
      invariant forall k | 0 <= k < leadingZeros :: s[k] == '1'
      invariant forall k | leadingZeros <= k < |s| :: s[k] == ALPHABET[digits[|digits| - 1 - (k - leadingZeros)]]
    {
      s := s + [ALPHABET[digits[i]]];
      i := i - 1;
    }
  }

  /** The conversion loop: the body's bytes folded in one by one. */
  method FoldBytes(body: seq<Byte>) returns (digits: seq<int>)
    requires body != [] && body[0] != 0
    ensures DigitsBelow(digits, 58)
    ensures BigValue(body, 256) >= 0 && digits == Digits(BigValue(body, 256), 58)
  {
    digits := [0];
    for i := 0 to |body|
      invariant digits != [] && DigitsBelow(digits, 58)
      invariant digits == [0] || digits[|digits| - 1] != 0
      invariant LittleValue(digits, 58) == BigValue(body[..i], 256)
      invariant |digits| <= 1 + 2 * i
      invariant i > 0 ==> LittleValue(digits, 58) > 0
    {
      assert body[..i + 1][..i] == body[..i];
      LittleValueNat(digits, 58);
      digits := FoldByte(digits, body[i]);
    }
    assert body[..|body|] == body;
    CanonicalDigits(digits, 58);
  }

  /** base58btcEncode. */
  method EncodeBytes(bytes: seq<Byte>) returns (s: string)
    ensures s == Encode(bytes)
  {
    var leadingZeros := 0;
    while leadingZeros < |bytes| && bytes[leadingZeros] == 0
      invariant 0 <= leadingZeros <= |bytes|
      invariant forall i | 0 <= i < leadingZeros :: bytes[i] == 0
    {
      leadingZeros := leadingZeros + 1;
    }
    var body := bytes[leadingZeros..];
    assert bytes == Zeros(leadingZeros) + body;
    ConvertPadded(leadingZeros, body, 256, 58);
    if |body| == 0 {
      s := seq(leadingZeros, _ => '1');
    } else {
      var digits := FoldBytes(body);
      s := Render(leadingZeros, digits);
    }
  }
}
