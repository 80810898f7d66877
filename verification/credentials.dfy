/** Password material (src/handlers.rs, `sign_up` and `check_password`): the
    SHA-256 digest of `password ++ salt`, rendered byte by byte as two
    upper-case hex digits (`format!("{:02X?}", c)`), and the shape of the
    random salt and account id. SHA-256 itself is a parameter of type
    `Hasher`: the model relies only on it being a function (deterministic)
    whose digest is 32 bytes long. */
module Credentials {

  newtype byte = x: int | 0 <= x < 256

  /** A SHA-256 digest: 32 bytes. */
  type Digest = d: seq<byte> | |d| == 32 witness seq(32, _ => 0 as byte)

  /** SHA-256 over the UTF-8 bytes of a string. */
  type Hasher = string -> Digest

  predicate IsUpperHexDigit(c: char) {
    '0' <= c <= '9' || 'A' <= c <= 'F'
  }

  /** The upper-case hex digit for `n < 16`. */
  function HexDigit(n: nat): (c: char)
    requires n < 16
    ensures IsUpperHexDigit(c)
    ensures DigitValue(c) == n
  {
    if n < 10 then (48 + n) as char else (55 + n) as char
  }

  /** The value of an upper-case hex digit (0 for any other character). */
  function DigitValue(c: char): (n: nat)
    ensures n < 16
  {
    if '0' <= c <= '9' then c as int - 48
    else if 'A' <= c <= 'F' then c as int - 55
    else 0
  }

  /** `format!("{:02X?}", b)`: two digits, high nibble first, zero-padded. */
  function HexByte(b: byte): (s: string)
    ensures |s| == 2 && IsUpperHexDigit(s[0]) && IsUpperHexDigit(s[1])
    ensures DigitValue(s[0]) * 16 + DigitValue(s[1]) == b as int
  {
    [HexDigit(b as int / 16), HexDigit(b as int % 16)]
  }

  /** The digest bytes rendered one after the other and collected into one
      string: two upper-case hex digits per byte. */
  function Hex(bs: seq<byte>): (s: string)
    ensures |s| == 2 * |bs|
    ensures forall i :: 0 <= i < |s| ==> IsUpperHexDigit(s[i])
  {
    if bs == [] then "" else HexByte(bs[0]) + Hex(bs[1..])
  }

  /** Reads pairs of hex digits back into bytes: the inverse of `Hex`. */
  function UnHex(s: string): (bs: seq<byte>)
    requires |s| % 2 == 0
    ensures |bs| == |s| / 2
  {
    if s == [] then [] else [(DigitValue(s[0]) * 16 + DigitValue(s[1])) as byte] + UnHex(s[2..])
  }

  /** Reading a rendering back gives the bytes it was made from. */
  lemma {:induction false} UnHexHex(bs: seq<byte>)
    ensures UnHex(Hex(bs)) == bs
  {
    if bs != [] {
      var b := bs[0] as int;
      assert DigitValue(HexDigit(b / 16)) == b / 16;
      assert DigitValue(HexDigit(b % 16)) == b % 16;
      assert Hex(bs)[2..] == Hex(bs[1..]);
      UnHexHex(bs[1..]);
    }
  }

  /** Conversely, rendering what was read back from a string of hex digit
      pairs gives that string. */
  lemma {:induction false} HexUnHex(s: string)
    requires |s| % 2 == 0
    requires forall i :: 0 <= i < |s| ==> IsUpperHexDigit(s[i])
    ensures Hex(UnHex(s)) == s
  {
    if s != [] {
      var v := DigitValue(s[0]) * 16 + DigitValue(s[1]);
      assert v / 16 == DigitValue(s[0]) && v % 16 == DigitValue(s[1]);
      assert HexDigit(DigitValue(s[0])) == s[0];
      assert HexDigit(DigitValue(s[1])) == s[1];
      assert UnHex(s)[1..] == UnHex(s[2..]);
      HexUnHex(s[2..]);
      assert s == s[..2] + s[2..];
    }
  }

  /** Two byte strings with the same rendering are equal. */
  lemma HexInjective(a: seq<byte>, b: seq<byte>)
    ensures Hex(a) == Hex(b) <==> a == b
  {
    if Hex(a) == Hex(b) {
      UnHexHex(a);
      UnHexHex(b);
    }
  }

  /** The characters `rand::distributions::Alphanumeric` draws from. */
  predicate IsAlphanumeric(c: char) {
    'a' <= c <= 'z' || 'A' <= c <= 'Z' || '0' <= c <= '9'
  }

  /** A salt as `sign_up` draws it: 16 alphanumeric characters. */
  predicate IsSalt(s: string) {
    |s| == 16 && forall i :: 0 <= i < |s| ==> IsAlphanumeric(s[i])
  }

  /** `Uuid::new_v4().to_simple().to_string()`: 32 lower-case hex digits. */
  predicate IsSimpleUuid(s: string) {
    |s| == 32 && forall i :: 0 <= i < |s| ==> ('0' <= s[i] <= '9' || 'a' <= s[i] <= 'f')
  }

  /** The stored password column: the hex rendering of SHA-256 over the
      password followed by the salt. */
  function PasswordHash(sha256: Hasher, password: string, salt: string): (h: string)
    ensures |h| == 64
    ensures forall i :: 0 <= i < |h| ==> IsUpperHexDigit(h[i])
  {
    Hex(sha256(password + salt))
  }

  /** The comparison in `check_password`: the candidate's recomputed hash
      equals the stored one. */
  predicate PasswordMatches(sha256: Hasher, candidate: string, salt: string, stored: string): (r: bool)
    ensures r <==> && |stored| == 64
                   && (forall i :: 0 <= i < |stored| ==> IsUpperHexDigit(stored[i]))
                   && UnHex(stored) == sha256(candidate + salt)
  {
    UnHexHex(sha256(candidate + salt));
    if |stored| == 64 && (forall i :: 0 <= i < |stored| ==> IsUpperHexDigit(stored[i])) then
      HexUnHex(stored);
      PasswordHash(sha256, candidate, salt) == stored
    else
      PasswordHash(sha256, candidate, salt) == stored
  }

  /** Against a hash stored at sign-up, a candidate passes exactly when its
      salted digest equals the digest of the password given at sign-up; in
      particular that password itself always passes. */
  lemma PasswordRoundTrip(sha256: Hasher, password: string, candidate: string, salt: string)
    ensures (PasswordMatches(sha256, candidate, salt, PasswordHash(sha256, password, salt))
             <==> sha256(candidate + salt) == sha256(password + salt))
    ensures PasswordMatches(sha256, password, salt, PasswordHash(sha256, password, salt))
  {
    HexInjective(sha256(candidate + salt), sha256(password + salt));
  }
}
