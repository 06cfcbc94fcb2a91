/** The authentication code of the Visma Pay protocol: HMAC-SHA256 of a
    message under the merchant's private key (RFC 2104 section 2 over the
    SHA-256 of FIPS 180-4 section 6.2), spelled as upper-case hexadecimal.
    The HMAC itself is not modelled: it is any function from key and message
    to a 32-byte digest, given as a parameter. What is modelled is
    `.hexdigest().upper()`, the spelling that is compared with the
    gateway's AUTHCODE. */
module Mac {
  import opened PyText

  newtype byte = x: int | 0 <= x < 256

  /** A SHA-256 sized digest */
  type Digest = d: seq<byte> | |d| == 32 witness seq(32, i => 0 as byte)

  /** HMAC-SHA256 keyed by the first argument, over the second; Python
      encodes both as UTF-8 first, which the function includes */
  type Hmac = (string, string) -> Digest

  /** One hexadecimal digit, in lower case as `hexdigest()` writes it */
  function HexDigit(v: int): char
    requires 0 <= v < 16
  {
    if v < 10 then ('0' as int + v) as char else ('a' as int + v - 10) as char
  }

  predicate IsLowerHex(c: char)
  {
    '0' <= c <= '9' || 'a' <= c <= 'f'
  }

  predicate IsUpperHex(c: char)
  {
    '0' <= c <= '9' || 'A' <= c <= 'F'
  }

  /** `hexdigest()`: two lower-case digits per byte, high nibble first */
  function HexDigest(d: seq<byte>): (r: string)
    ensures |r| == 2 * |d|
    ensures forall i :: 0 <= i < |r| ==> IsLowerHex(r[i])
  {
    if d == [] then ""
    else [HexDigit(d[0] as int / 16), HexDigit(d[0] as int % 16)] + HexDigest(d[1..])
  }

  /** `hmac.new(key, message, "sha256").hexdigest().upper()`: 64 characters,
      none of them a lower-case letter */
  function Authcode(hmac: Hmac, key: string, message: string): (r: string)
    ensures |r| == 64
    ensures forall i :: 0 <= i < |r| ==> IsUpperHex(r[i])
    ensures forall i :: 0 <= i < |r| ==> !('a' <= r[i] <= 'z')
  {
    var lower := HexDigest(hmac(key, message));
    assert forall i :: 0 <= i < |lower| ==> IsUpperHex(UpperChar(lower[i]));
    Upper(lower)
  }

  lemma UpperHexDigitInjective(a: int, b: int)
    requires 0 <= a < 16 && 0 <= b < 16
    ensures UpperChar(HexDigit(a)) == UpperChar(HexDigit(b)) <==> a == b
  {
  }

  lemma UpperSuffix(s: string, k: nat)
    requires k <= |s|
    ensures Upper(s)[k..] == Upper(s[k..])
  {
    assert forall i :: 0 <= i < |s| - k ==> Upper(s)[k..][i] == Upper(s[k..])[i];
  }

  /** The upper-case spelling loses nothing: two digests are spelled alike
      exactly when they are equal, so comparing authcodes compares digests */
  lemma {:induction false} SpellingInjective(d1: seq<byte>, d2: seq<byte>)
    ensures Upper(HexDigest(d1)) == Upper(HexDigest(d2)) <==> d1 == d2
    decreases |d1|
  {
    var u1, u2 := Upper(HexDigest(d1)), Upper(HexDigest(d2));
    if u1 == u2 && d1 != [] && d2 != [] {
      var x, y := d1[0] as int, d2[0] as int;
      assert u1[0] == UpperChar(HexDigit(x / 16)) && u2[0] == UpperChar(HexDigit(y / 16));
      assert u1[1] == UpperChar(HexDigit(x % 16)) && u2[1] == UpperChar(HexDigit(y % 16));
      UpperHexDigitInjective(x / 16, y / 16);
      UpperHexDigitInjective(x % 16, y % 16);
      assert x == y;
      UpperSuffix(HexDigest(d1), 2);
      UpperSuffix(HexDigest(d2), 2);
      assert HexDigest(d1)[2..] == HexDigest(d1[1..]);
      assert HexDigest(d2)[2..] == HexDigest(d2[1..]);
      SpellingInjective(d1[1..], d2[1..]);
      assert d1 == [d1[0]] + d1[1..] && d2 == [d2[0]] + d2[1..];
    }
  }
}
