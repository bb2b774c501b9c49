/** The XOR body transform (cipher.py): each character's code point is XORed
    with the code point of the key character at the same position modulo the
    key length; `encrypt` and `decrypt` wrap it in a base64-over-UTF-8 codec. */
module Cipher {
  import opened Wrappers

  /** The default key. */
  const KEY: string := "STUTTGART"

  function Pow2(n: nat): (p: nat)
    ensures p >= 1
  {
    if n == 0 then 1 else 2 * Pow2(n - 1)
  }

  /** Python's `^` on non-negative integers, bit by bit from the lowest. */
  function Xor(a: nat, b: nat): nat
    decreases a + b
  {
    if a == 0 && b == 0 then 0
    else 2 * Xor(a / 2, b / 2) + (if a % 2 == b % 2 then 0 else 1)
  }

  lemma {:induction false} XorZero(a: nat)
    ensures Xor(a, 0) == a
    decreases a
  {
    if a != 0 {
      XorZero(a / 2);
    }
  }

  /** XOR with the same value twice gives back the original. */
  lemma {:induction false} XorSelfInverse(a: nat, b: nat)
    ensures Xor(Xor(a, b), b) == a
    decreases a + b
  {
    if a == 0 && b == 0 {
    } else if b == 0 {
      XorZero(a);
    } else {
      var y := Xor(a / 2, b / 2);
      var bit := if a % 2 == b % 2 then 0 else 1;
      var x := 2 * y + bit;
      assert Xor(a, b) == x;
      assert x / 2 == y && x % 2 == bit;
      XorSelfInverse(a / 2, b / 2);
      assert Xor(x, b) == 2 * Xor(y, b / 2) + (if bit == b % 2 then 0 else 1);
      assert a == 2 * (a / 2) + a % 2;
    }
  }

  lemma {:induction false} MulAtLeast(d: int, k: int)
    requires d > 0 && k >= 1
    ensures d * k >= d
  {
    if k > 1 {
      MulAtLeast(d, k - 1);
      assert d * k == d * (k - 1) + d;
    }
  }

  lemma DivUnique(x: int, d: int, q: int, r: int)
    requires d > 0 && x == d * q + r && 0 <= r < d
    ensures x / d == q
  {
    var q', r' := x / d, x % d;
    assert d * q' + r' == x;
    if q' > q {
      MulAtLeast(d, q' - q);
    } else if q' < q {
      MulAtLeast(d, q - q');
    }
  }

  lemma HalfDiv(a: nat, p: nat)
    requires p >= 1
    ensures (a / 2) / p == a / (2 * p)
  {
    var q, r := a / (2 * p), a % (2 * p);
    assert a == 2 * (p * q) + r;
    DivUnique(a, 2, p * q + r / 2, r % 2);
    DivUnique(p * q + r / 2, p, q, r / 2);
  }

  /** XOR with a value below 2^n leaves every bit from n upwards unchanged. */
  lemma {:induction false} XorKeepsHigh(a: nat, b: nat, n: nat)
    requires b < Pow2(n)
    ensures Xor(a, b) / Pow2(n) == a / Pow2(n)
  {
    if n == 0 {
      XorZero(a);
    } else if a == 0 && b == 0 {
    } else {
      var p := Pow2(n - 1);
      XorKeepsHigh(a / 2, b / 2, n - 1);
      var y := Xor(a / 2, b / 2);
      var bit := if a % 2 == b % 2 then 0 else 1;
      assert Xor(a, b) == 2 * y + bit;
      HalfDiv(2 * y + bit, p);
      HalfDiv(a, p);
      assert (2 * y + bit) / 2 == y;
    }
  }

  /** The code points Dafny's `char` (and Python's `chr` on valid text) covers. */
  predicate IsScalarValue(n: int)
  {
    0 <= n < 0xD800 || 0xE000 <= n < 0x11_0000
  }

  /** XOR with an ASCII code stays inside one aligned block of 128 code points,
      and the surrogate gap and the upper bound are aligned to such blocks, so
      the result is again a scalar value. */
  lemma XorAsciiIsScalar(a: nat, b: nat)
    requires IsScalarValue(a) && b < 128
    ensures IsScalarValue(Xor(a, b))
    ensures Xor(a, b) / 128 == a / 128
  {
    XorKeepsHigh(a, b, 7);
  }

  /** `chr(ord(c) ^ ord(k))` for an ASCII key character `k`. */
  function XorChar(c: char, k: char): (r: char)
    requires k as int < 128
    ensures (r as int) / 128 == (c as int) / 128
  {
    XorAsciiIsScalar(c as int, k as int);
    Xor(c as int, k as int) as char
  }

  /** XORing the same key character twice gives back the character. */
  lemma XorCharInvolution(c: char, k: char)
    requires k as int < 128
    ensures XorChar(XorChar(c, k), k) == c
  {
    var once := XorChar(c, k);
    XorAsciiIsScalar(c as int, k as int);
    var x := Xor(c as int, k as int);
    assert once == x as char;
    assert (x as char) as int == x;
    assert once as int == Xor(c as int, k as int);
    XorSelfInverse(c as int, k as int);
  }

  predicate IsAscii(key: string)
  {
    forall i :: 0 <= i < |key| ==> key[i] as int < 128
  }

  /** Text XORed position by position with the repeated key. */
  function XorStream(text: string, key: string): string
    requires IsAscii(key)
    requires |text| == 0 || |key| > 0
  {
    seq(|text|, i requires 0 <= i < |text| => XorChar(text[i], key[i % |key|]))
  }

  /** `transform`: builds the result one character at a time.  A non-empty
      text with an empty key raises ZeroDivisionError at `i % len(key)`,
      modelled as `None`. */
  method Transform(text: string, key: string) returns (result: Option<string>)
    requires IsAscii(key)
    ensures |text| > 0 && |key| == 0 ==> result == None
    ensures |text| == 0 || |key| > 0 ==> result == Some(XorStream(text, key))
    ensures |text| == 0 ==> result == Some("")
    ensures result.Some? ==> |result.value| == |text|
  {
    var acc := "";
    for i := 0 to |text|
      invariant |key| > 0 || i == 0
      invariant |acc| == i
      invariant forall j :: 0 <= j < i ==> acc[j] == XorChar(text[j], key[j % |key|])
    {
      if |key| == 0 {
        return None;
      }
      acc := acc + [XorChar(text[i], key[i % |key|])];
    }
    assert acc == XorStream(text, key);
    result := Some(acc);
  }

  /** The transform keeps the length and, applied twice with the same key,
      gives back the original text. */
  lemma {:induction false} TransformTwice(text: string, key: string)
    requires IsAscii(key)
    requires |text| == 0 || |key| > 0
    ensures |XorStream(text, key)| == |text|
    ensures XorStream(XorStream(text, key), key) == text
  {
    var once := XorStream(text, key);
    var twice := XorStream(once, key);
    forall i | 0 <= i < |text|
      ensures twice[i] == text[i]
    {
      XorCharInvolution(text[i], key[i % |key|]);
    }
  }

  /** The text codec `encrypt` and `decrypt` apply after and before the
      transform: `base64.b64encode(s.encode()).decode()` and its inverse,
      which fails on a token that is not valid base64 or UTF-8.  Python's
      library provides both; the model takes them as a parameter. */
  datatype Codec = Codec(encode: string -> string, decode: string -> Option<string>)

  /** The property the library promises: decoding an encoding gives back the text. */
  ghost predicate RoundTrips(codec: Codec)
  {
    forall s :: codec.decode(codec.encode(s)) == Some(s)
  }

  /** `encrypt`: the transform with `KEY`, then the codec.  With a codec that
      round-trips, the token decodes to a text that the transform turns back
      into the original. */
  function Encrypt(text: string, codec: Codec): (token: string)
    ensures RoundTrips(codec) ==>
              && codec.decode(token).Some?
              && XorStream(codec.decode(token).value, KEY) == text
  {
    TransformTwice(text, KEY);
    codec.encode(XorStream(text, KEY))
  }

  /** `decrypt`: the codec's decoding, then the transform with `KEY`.  A token
      the codec rejects raises in Python, modelled as `None`; otherwise the
      result has the decoded text's length and transforms back into it. */
  function Decrypt(token: string, codec: Codec): (r: Option<string>)
    ensures r.None? <==> codec.decode(token).None?
    ensures r.Some? ==>
              && |r.value| == |codec.decode(token).value|
              && XorStream(r.value, KEY) == codec.decode(token).value
  {
    match codec.decode(token)
    case None => None
    case Some(ciphered) =>
      TransformTwice(ciphered, KEY);
      Some(XorStream(ciphered, KEY))
  }

  /** `decrypt(encrypt(t)) == t` for every text, given a codec that round-trips. */
  lemma DecryptEncrypt(text: string, codec: Codec)
    requires RoundTrips(codec)
    ensures Decrypt(Encrypt(text, codec), codec) == Some(text)
  {
    TransformTwice(text, KEY);
  }
}
