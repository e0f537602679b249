/**
 * `hash_password` and `verify_password` of utils/helper_functions.py. The
 * stored form is "salt$hex" where hex is the hexadecimal digest of
 * PBKDF2-HMAC-SHA256 (100000 iterations) over the password and salt. The
 * key derivation is a function parameter `kdf`, and the salt drawn when
 * none is given is an oracle input `drawn` (in the source, the first
 * 16 hexadecimal digits of a SHA-256 of a random number).
 */
module HelperPasswords {
  import opened Wrappers
  import opened Seqs
  import opened Splitting

  type Byte = x: int | 0 <= x < 256

  /** The abstract PBKDF2-HMAC-SHA256 of a password and salt (both UTF-8 encoded). */
  type Kdf = (string, string) -> seq<Byte>

  predicate IsHexChar(c: char) {
    '0' <= c <= '9' || 'a' <= c <= 'f'
  }

  function HexDigit(n: int): (c: char)
    requires 0 <= n < 16
    ensures IsHexChar(c)
  {
    if n < 10 then ('0' as int + n) as char else ('a' as int + n - 10) as char
  }

  /** `bytes.hex()`: two lower-case digits per byte, high nibble first. */
  function Hex(bytes: seq<Byte>): (h: string)
    ensures |h| == 2 * |bytes|
    ensures forall i :: 0 <= i < |h| ==> IsHexChar(h[i])
  {
    if |bytes| == 0 then ""
    else [HexDigit(bytes[0] / 16), HexDigit(bytes[0] % 16)] + Hex(bytes[1..])
  }

  lemma HexDigitInjective(m: int, n: int)
    requires 0 <= m < 16 && 0 <= n < 16 && HexDigit(m) == HexDigit(n)
    ensures m == n
  {
  }

  /** Different digests have different hexadecimal forms. */
  lemma {:induction false} HexInjective(a: seq<Byte>, b: seq<Byte>)
    requires Hex(a) == Hex(b)
    ensures a == b
    decreases |a|
  {
    if |a| > 0 {
      var ha := Hex(a);
      assert ha[0] == HexDigit(a[0] / 16) && ha[1] == HexDigit(a[0] % 16);
      assert ha[0] == HexDigit(b[0] / 16) && ha[1] == HexDigit(b[0] % 16);
      HexDigitInjective(a[0] / 16, b[0] / 16);
      HexDigitInjective(a[0] % 16, b[0] % 16);
      assert Hex(a[1..]) == ha[2..] == Hex(b[1..]);
      HexInjective(a[1..], b[1..]);
    }
  }

  lemma HexHasNoDollar(bytes: seq<Byte>)
    ensures '$' !in Hex(bytes)
  {
  }

  /** `if not salt`: a missing or empty salt is replaced by the drawn one. */
  function EffectiveSalt(salt: Option<string>, drawn: string): (s: string)
    ensures Truthy(salt) ==> s == salt.value
    ensures !Truthy(salt) ==> s == drawn
  {
    if Truthy(salt) then salt.value else drawn
  }

  /** `hash_password(password, salt)` */
  function HashPassword(password: string, salt: Option<string>, drawn: string, kdf: Kdf): (h: string)
    ensures var s := EffectiveSalt(salt, drawn);
            && |h| == |s| + 1 + 2 * |kdf(password, s)|
            && h[..|s|] == s && h[|s|] == '$'
            && h[|s| + 1..] == Hex(kdf(password, s))
  {
    var s := EffectiveSalt(salt, drawn);
    s + "$" + Hex(kdf(password, s))
  }

  /**
   * `verify_password(password, hashed)`: the stored string must split on '$'
   * into exactly two parts (otherwise the unpacking raises ValueError and the
   * answer is False); then the password is hashed again with the stored salt.
   */
  function VerifyPassword(password: string, hashed: string, drawn: string, kdf: Kdf): (ok: bool)
    ensures ok ==> Occ(hashed, '$') == 1
    ensures Occ(hashed, '$') != 1 ==> !ok
  {
    SplitCount(hashed, '$');
    var parts := Split(hashed, '$');
    if |parts| != 2 then false
    else HashPassword(password, Some(parts[0]), drawn, kdf) == hashed
  }

  /** The parts of a stored hash are its salt and its digest, when the salt has no '$'. */
  lemma SplitStored(s: string, digest: seq<Byte>)
    requires '$' !in s
    ensures Split(s + "$" + Hex(digest), '$') == [s, Hex(digest)]
  {
    HexHasNoDollar(digest);
    SplitAfterPart(s, '$', Hex(digest));
    SplitOfFree(Hex(digest), '$');
  }

  /**
   * The round trip: a hash verifies against its own password whenever the
   * salt used is non-empty and free of '$', whatever salt a later call would
   * draw.
   */
  lemma HashThenVerify(password: string, salt: Option<string>, drawn: string, drawn2: string, kdf: Kdf)
    requires var s := EffectiveSalt(salt, drawn); |s| > 0 && '$' !in s
    ensures VerifyPassword(password, HashPassword(password, salt, drawn, kdf), drawn2, kdf)
  {
    var s := EffectiveSalt(salt, drawn);
    SplitStored(s, kdf(password, s));
  }

  /** A hash made for one password does not verify another whose digest under that salt differs. */
  lemma WrongPasswordRejected(password: string, other: string, salt: string, drawn: string, kdf: Kdf)
    requires |salt| > 0 && '$' !in salt
    requires kdf(password, salt) != kdf(other, salt)
    ensures !VerifyPassword(other, HashPassword(password, Some(salt), drawn, kdf), drawn, kdf)
  {
    var stored := HashPassword(password, Some(salt), drawn, kdf);
    SplitStored(salt, kdf(password, salt));
    if HashPassword(other, Some(salt), drawn, kdf) == stored {
      var mine := HashPassword(other, Some(salt), drawn, kdf);
      assert mine[|salt| + 1..] == stored[|salt| + 1..];
      HexInjective(kdf(other, salt), kdf(password, salt));
    }
  }

  /** A salt containing '$' is accepted by `hash_password` but its hash never verifies. */
  lemma DollarSaltNeverVerifies(password: string, other: string, salt: string, drawn: string, kdf: Kdf)
    requires '$' in salt
    ensures !VerifyPassword(other, HashPassword(password, Some(salt), drawn, kdf), drawn, kdf)
  {
    HexHasNoDollar(kdf(password, salt));
    var stored := HashPassword(password, Some(salt), drawn, kdf);
    OccAppend(salt, "$", '$');
    OccAppend(salt + "$", Hex(kdf(password, salt)), '$');
    assert Occ("$", '$') == 1 by {
      assert "$"[..0] == "";
    }
    assert Occ(stored, '$') >= 2;
  }

  /**
   * A stored string with an empty salt never verifies: the empty salt is
   * falsy, so a newly drawn (hexadecimal, non-empty) salt is drawn and the new
   * hash no longer begins with '$'.
   */
  lemma EmptySaltNeverVerifies(password: string, digest: string, drawn: string, kdf: Kdf)
    requires |drawn| > 0 && IsHexChar(drawn[0])
    ensures !VerifyPassword(password, "$" + digest, drawn, kdf)
  {
    var stored := "$" + digest;
    var parts := Split(stored, '$');
    assert stored[1..] == digest;
    assert parts[0] == "";
    assert HashPassword(password, Some(parts[0]), drawn, kdf)[0] == drawn[0];
  }
}
