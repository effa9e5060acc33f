/**
  API keys (packages/storage/src/api-key-crypto.ts): a random buffer is read as one
  big-endian number, written in base 62, padded to 43 characters and prefixed.
 */
module Base62 {

  type byte = x: int | 0 <= x < 256

  const PREFIX := "sk_"
  const BODY_LENGTH := 43
  const NUMERALS := "0123456789"
  const UPPER := "ABCDEFGHIJKLMNOPQRSTUVWXYZ"
  const LOWER := "abcdefghijklmnopqrstuvwxyz"

  function Alphabet(): string {
    NUMERALS + UPPER + LOWER
  }

  function Pow(b: nat, e: nat): nat {
    if e == 0 then 1 else b * Pow(b, e - 1)
  }

  // BigInt(`0x${buffer.toString("hex")}`)
  function BytesToNat(buffer: seq<byte>): nat {
    if buffer == [] then 0 else BytesToNat(buffer[..|buffer| - 1]) * 256 + buffer[|buffer| - 1]
  }

  // --------------------------------------------------------- digits and characters

  function DigitChar(d: nat): char
    requires d < 62
  {
    if d < 10 then '0' + d as char
    else if d < 36 then 'A' + (d - 10) as char
    else 'a' + (d - 36) as char
  }

  predicate IsAlphanumeric(c: char) {
    'A' <= c <= 'Z' || 'a' <= c <= 'z' || '0' <= c <= '9'
  }

  function CharDigit(c: char): nat
    requires IsAlphanumeric(c)
  {
    if '0' <= c <= '9' then c as int - '0' as int
    else if 'A' <= c <= 'Z' then c as int - 'A' as int + 10
    else c as int - 'a' as int + 36
  }

  lemma NumeralAt(d: nat)
    requires d < 10
    ensures |NUMERALS| == 10 && NUMERALS[d] == '0' + d as char
  {
  }

  lemma UpperAt(d: nat)
    requires d < 26
    ensures |UPPER| == 26 && UPPER[d] == 'A' + d as char
  {
  }

  lemma LowerAt(d: nat)
    requires d < 26
    ensures |LOWER| == 26 && LOWER[d] == 'a' + d as char
  {
  }

  // The alphabet lists the 62 alphanumeric characters in digit order, once each.
  lemma AlphabetAt(d: nat)
    requires d < 62
    ensures |Alphabet()| == 62 && Alphabet()[d] == DigitChar(d)
    ensures IsAlphanumeric(DigitChar(d)) && CharDigit(DigitChar(d)) == d
  {
    NumeralAt(if d < 10 then d else 0);
    UpperAt(if 10 <= d < 36 then d - 10 else 0);
    LowerAt(if 36 <= d then d - 36 else 0);
  }

  predicate IsBody(s: string) {
    forall i :: 0 <= i < |s| ==> IsAlphanumeric(s[i])
  }

  // The number that a base-62 string denotes.
  function Decode(s: string): nat
    requires IsBody(s)
  {
    if s == [] then 0 else Decode(s[..|s| - 1]) * 62 + CharDigit(s[|s| - 1])
  }

  // ------------------------------------------------------------------- the encoder

  function PadStart(s: string, length: nat): string {
    if |s| >= length then s else seq(length - |s|, _ => '0') + s
  }

  // Characters of the number, most significant first, none for zero.
  function Digits(n: nat): string {
    if n == 0 then [] else Digits(n / 62) + [DigitChar(n % 62)]
  }

  function EncodeNat(n: nat): string {
    PadStart(Digits(n), BODY_LENGTH)
  }

  // base62Encode. An empty buffer makes BigInt throw, hence the requires.
  method Encode(buffer: seq<byte>) returns (body: string)
    requires buffer != []
    ensures body == EncodeNat(BytesToNat(buffer))
    ensures IsBody(body) && Decode(body) == BytesToNat(buffer)
    ensures |buffer| <= 32 ==> |body| == BODY_LENGTH
  {
    var value: nat := BytesToNat(buffer);
    EncoderMeets(buffer);
    if value == 0 {
      return PadStart("0", BODY_LENGTH);
    }
    var encoded := "";
    while value > 0
      invariant value >= 0
      invariant Digits(value) + encoded == Digits(BytesToNat(buffer))
    {
      DigitsStep(value, encoded);
      AlphabetAt(value % 62);
      encoded := [Alphabet()[value % 62]] + encoded;
      value := value / 62;
    }
    assert "" + encoded == encoded;
    body := PadStart(encoded, BODY_LENGTH);
  }

  lemma DigitsStep(value: nat, encoded: string)
    requires value > 0
    ensures Digits(value) + encoded == Digits(value / 62) + ([DigitChar(value % 62)] + encoded)
  {
  }

  lemma EncoderMeets(buffer: seq<byte>)
    ensures var body := EncodeNat(BytesToNat(buffer));
            && IsBody(body) && Decode(body) == BytesToNat(buffer)
            && (|buffer| <= 32 ==> |body| == BODY_LENGTH)
    ensures BytesToNat(buffer) == 0 ==> PadStart("0", BODY_LENGTH) == EncodeNat(0)
  {
    EncodeRoundTrip(BytesToNat(buffer));
    BufferBound(buffer);
    KeyLength(BytesToNat(buffer));
    assert PadStart("0", BODY_LENGTH) == PadStart([], BODY_LENGTH);
  }

  function ApiKey(buffer: seq<byte>): string {
    PREFIX + EncodeNat(BytesToNat(buffer))
  }

  // API_KEY_PATTERN: the prefix and exactly 43 letters or digits.
  predicate IsValidApiKeyFormat(value: string) {
    |value| == 46 && value[..3] == PREFIX && IsBody(value[3..])
  }

  // ---------------------------------------------------------------------- theorems

  // The tight bound behind the key length: 43 characters are enough for 32 bytes,
  // 42 are not.
  lemma BodyLengthIsTight()
    ensures Pow(62, 42) < Pow(256, 32) < Pow(62, 43)
  {
    PowAdd(62, 10, 10);
    assert Pow(62, 20) == 704423425546998022968330264616370176;
    PowAdd(62, 20, 20);
    assert Pow(62, 40) == 496212362459367066914366580195701544604991251555593230875525121862270976;
    PowAdd(62, 40, 2);
    PowAdd(62, 40, 3);
    PowAdd(256, 8, 8);
    assert Pow(256, 16) == 340282366920938463463374607431768211456;
    PowAdd(256, 16, 16);
  }

  lemma MulAssociates(a: nat, b: nat, c: nat)
    ensures a * (b * c) == a * b * c
  {
  }

  lemma {:induction false} PowAdd(b: nat, m: nat, n: nat)
    ensures Pow(b, m + n) == Pow(b, m) * Pow(b, n)
    decreases m
  {
    if m > 0 {
      PowAdd(b, m - 1, n);
      MulAssociates(b, Pow(b, m - 1), Pow(b, n));
    }
  }

  lemma {:induction false} PowMonotone(b: nat, m: nat, n: nat)
    requires 1 <= b && m <= n
    ensures 1 <= Pow(b, m) <= Pow(b, n)
    decreases n
  {
    if m < n {
      PowMonotone(b, m, n - 1);
    } else if m > 0 {
      PowMonotone(b, m - 1, m - 1);
    }
  }

  lemma {:induction false} BufferBound(buffer: seq<byte>)
    ensures BytesToNat(buffer) < Pow(256, |buffer|)
    ensures |buffer| <= 32 ==> BytesToNat(buffer) < Pow(256, 32)
  {
    if buffer != [] {
      BufferBound(buffer[..|buffer| - 1]);
    }
    if |buffer| <= 32 {
      PowMonotone(256, |buffer|, 32);
    }
  }

  // The digit string of n denotes n, and has at most k characters exactly when n < 62^k.
  lemma {:induction false} DigitsRoundTrip(n: nat)
    ensures IsBody(Digits(n)) && Decode(Digits(n)) == n
  {
    if n != 0 {
      AlphabetAt(n % 62);
      DigitsRoundTrip(n / 62);
      assert Digits(n)[..|Digits(n)| - 1] == Digits(n / 62);
    }
  }

  lemma {:induction false} DigitsLength(n: nat, k: nat)
    ensures |Digits(n)| <= k <==> n < Pow(62, k)
    decreases k
  {
    if k == 0 {
    } else if n == 0 {
      PowMonotone(62, 0, k);
    } else {
      DigitsLength(n / 62, k - 1);
      assert n / 62 < Pow(62, k - 1) <==> n < 62 * Pow(62, k - 1);
    }
  }

  lemma {:induction false} DecodePad(zeros: nat, s: string)
    requires IsBody(s)
    ensures IsBody(seq(zeros, _ => '0') + s)
    ensures Decode(seq(zeros, _ => '0') + s) == Decode(s)
    decreases zeros, |s|
  {
    var padded := seq(zeros, _ => '0') + s;
    if s != [] {
      DecodePad(zeros, s[..|s| - 1]);
      assert padded[..|padded| - 1] == seq(zeros, _ => '0') + s[..|s| - 1];
    } else if zeros > 0 {
      DecodePad(zeros - 1, s);
      assert padded[..|padded| - 1] == seq(zeros - 1, _ => '0') + s;
    }
  }

  // Decoding returns the number that was encoded, for every number.
  lemma EncodeRoundTrip(n: nat)
    ensures IsBody(EncodeNat(n)) && Decode(EncodeNat(n)) == n
  {
    DigitsRoundTrip(n);
    if |Digits(n)| < BODY_LENGTH {
      DecodePad(BODY_LENGTH - |Digits(n)|, Digits(n));
    }
  }

  // A body has exactly 43 characters if and only if the number is below 62^43.
  lemma KeyLength(n: nat)
    ensures |EncodeNat(n)| == BODY_LENGTH <==> n < Pow(62, 43)
    ensures n < Pow(256, 32) ==> |EncodeNat(n)| == BODY_LENGTH
  {
    DigitsLength(n, 43);
    BodyLengthIsTight();
  }

  lemma {:induction false} BytesInjective(a: seq<byte>, b: seq<byte>)
    requires |a| == |b| && BytesToNat(a) == BytesToNat(b)
    ensures a == b
  {
    if a != [] {
      var m := |a| - 1;
      assert BytesToNat(a[..m]) * 256 + a[m] == BytesToNat(b[..m]) * 256 + b[m];
      assert a[m] == b[m];
      BytesInjective(a[..m], b[..m]);
      assert a == a[..m] + [a[m]] && b == b[..m] + [b[m]];
    }
  }

  lemma CharInjective(c: char, d: char)
    requires IsAlphanumeric(c) && IsAlphanumeric(d) && CharDigit(c) == CharDigit(d)
    ensures c == d && CharDigit(c) < 62
  {
  }

  lemma DigitSplit(a: nat, x: nat, b: nat, y: nat)
    requires x < 62 && y < 62 && a * 62 + x == b * 62 + y
    ensures a == b && x == y
  {
  }

  lemma {:induction false} DecodeInjective(s: string, t: string)
    requires IsBody(s) && IsBody(t) && |s| == |t| && Decode(s) == Decode(t)
    ensures s == t
  {
    if s != [] {
      var m := |s| - 1;
      assert CharDigit(s[m]) < 62 && CharDigit(t[m]) < 62;
      DigitSplit(Decode(s[..m]), CharDigit(s[m]), Decode(t[..m]), CharDigit(t[m]));
      CharInjective(s[m], t[m]);
      DecodeInjective(s[..m], t[..m]);
      assert s == s[..m] + [s[m]] && t == t[..m] + [t[m]];
    }
  }

  // Distinct 32-byte buffers give distinct keys.
  lemma KeysAreDistinct(a: seq<byte>, b: seq<byte>)
    requires |a| == |b| && a != b
    ensures ApiKey(a) != ApiKey(b)
  {
    if ApiKey(a) == ApiKey(b) {
      assert ApiKey(a)[3..] == EncodeNat(BytesToNat(a)) && ApiKey(b)[3..] == EncodeNat(BytesToNat(b));
      EncodeRoundTrip(BytesToNat(a));
      EncodeRoundTrip(BytesToNat(b));
      BytesInjective(a, b);
    }
  }

  function NatToBytes(n: nat, length: nat): seq<byte> {
    if length == 0 then [] else NatToBytes(n / 256, length - 1) + [n % 256]
  }

  lemma {:induction false} NatToBytesRoundTrip(n: nat, length: nat)
    requires n < Pow(256, length)
    ensures |NatToBytes(n, length)| == length && BytesToNat(NatToBytes(n, length)) == n
    decreases length
  {
    if length > 0 {
      assert n / 256 < Pow(256, length - 1);
      NatToBytesRoundTrip(n / 256, length - 1);
      var bytes := NatToBytes(n, length);
      assert bytes[..|bytes| - 1] == NatToBytes(n / 256, length - 1);
    }
  }

  // Every generated key passes the format check, and a well-formed key is one that
  // some 32-byte buffer generates exactly when its body denotes a number below 2^256.
  lemma GeneratedKeys(buffer: seq<byte>)
    requires |buffer| == 32
    ensures IsValidApiKeyFormat(ApiKey(buffer))
  {
    BufferBound(buffer);
    KeyLength(BytesToNat(buffer));
    EncodeRoundTrip(BytesToNat(buffer));
    assert ApiKey(buffer)[3..] == EncodeNat(BytesToNat(buffer));
  }

  lemma KeySpace(key: string)
    requires IsValidApiKeyFormat(key)
    ensures (exists buffer: seq<byte> :: |buffer| == 32 && ApiKey(buffer) == key)
            <==> Decode(key[3..]) < Pow(256, 32)
  {
    var n := Decode(key[3..]);
    if n < Pow(256, 32) {
      var buffer := NatToBytes(n, 32);
      NatToBytesRoundTrip(n, 32);
      EncodeRoundTrip(n);
      KeyLength(n);
      DecodeInjective(EncodeNat(n), key[3..]);
      assert key == key[..3] + key[3..];
      assert |buffer| == 32 && ApiKey(buffer) == key;
    }
    forall buffer: seq<byte> | |buffer| == 32 && ApiKey(buffer) == key
      ensures n < Pow(256, 32)
    {
      BufferBound(buffer);
      EncodeRoundTrip(BytesToNat(buffer));
      assert ApiKey(buffer)[3..] == EncodeNat(BytesToNat(buffer));
    }
  }
}
