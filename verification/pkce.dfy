/** The Proof Key for Code Exchange pieces of the sign-in flow
    (src/medicover_client/client.py, `log_in`): the code verifier built from
    three uuid4 values and the S256 code challenge of RFC 7636, which is the
    URL-safe base64 alphabet of section 5 of RFC 4648 with the trailing '='
    padding removed. SHA-256 itself is a parameter of the model. */
module Pkce {
  import opened Wrappers

  type byte = x: int | 0 <= x < 256
  type sextet = x: int | 0 <= x < 64

  /** A uuid4 value: a 128-bit integer. Its randomness is an input. */
  type Uuid = x: nat | x < 0x1_0000_0000_0000_0000_0000_0000_0000_0000

  /** The "unreserved" characters that section 4.1 of RFC 7636 allows
      in a code verifier. */
  predicate IsUnreserved(c: char) {
    'A' <= c <= 'Z' || 'a' <= c <= 'z' || '0' <= c <= '9' || c == '-' || c == '.' || c == '_' || c == '~'
  }

  // ---------------------------------------------------------------------
  // Code verifier
  // ---------------------------------------------------------------------

  const HexAlphabet: string := "0123456789abcdef"

  /** The `width` low hex digits of `u`, most significant first, zero-padded. */
  function HexDigits(u: nat, width: nat): (r: string)
    ensures |r| == width
    ensures forall i :: 0 <= i < |r| ==> r[i] in HexAlphabet
  {
    if width == 0 then "" else HexDigits(u / 16, width - 1) + [HexAlphabet[u % 16]]
  }

  /** `uuid.UUID.hex`: 32 lower-case hex digits. */
  function UuidHex(u: Uuid): string {
    HexDigits(u, 32)
  }

  /** The verifier: the hex forms of the draws, joined in draw order. */
  function CodeVerifier(uuids: seq<Uuid>): (v: string)
    ensures |v| == 32 * |uuids|
    ensures forall i :: 0 <= i < |v| ==> v[i] in HexAlphabet && IsUnreserved(v[i])
  {
    if uuids == [] then ""
    else CodeVerifier(uuids[..|uuids| - 1]) + UuidHex(uuids[|uuids| - 1])
  }

  /** The value of one hex digit. */
  function DigitValue(d: char): nat {
    var v := if '0' <= d <= '9' then d as int - '0' as int else d as int - 'a' as int + 10;
    if 0 <= v then v else 0
  }

  /** Each letter of the alphabet stands for its position. */
  lemma DigitValueOfAlphabet(k: nat)
    requires k < 16
    ensures DigitValue(HexAlphabet[k]) == k
  {
  }

  /** The numeric value of a string of hex digits. */
  function HexValue(s: string): nat
    requires forall i :: 0 <= i < |s| ==> s[i] in HexAlphabet
  {
    if s == [] then 0
    else 16 * HexValue(s[..|s| - 1]) + DigitValue(s[|s| - 1])
  }

  function Pow16(n: nat): (r: nat)
    ensures r > 0
  {
    if n == 0 then 1 else 16 * Pow16(n - 1)
  }

  lemma {:induction false} Pow16Add(a: nat, b: nat)
    ensures Pow16(a + b) == Pow16(a) * Pow16(b)
  {
    if a > 0 {
      Pow16Add(a - 1, b);
    }
  }

  /** 32 hex digits hold exactly the 128 bits of a uuid. */
  lemma Pow16Of32()
    ensures Pow16(32) == 0x1_0000_0000_0000_0000_0000_0000_0000_0000
  {
    assert Pow16(4) == 0x1_0000;
    Pow16Add(4, 4);
    Pow16Add(8, 8);
    Pow16Add(16, 16);
  }

  /** Reading the digits back gives the number, when it fits in `width`
      digits. */
  lemma {:induction false} HexDigitsValue(u: nat, width: nat)
    requires u < Pow16(width)
    ensures HexValue(HexDigits(u, width)) == u
  {
    if width > 0 {
      var s := HexDigits(u, width);
      assert s[..|s| - 1] == HexDigits(u / 16, width - 1);
      assert s[|s| - 1] == HexAlphabet[u % 16];
      DigitValueOfAlphabet(u % 16);
      assert u / 16 < Pow16(width - 1) by {
        assert u < 16 * Pow16(width - 1);
      }
      HexDigitsValue(u / 16, width - 1);
      assert u == 16 * (u / 16) + u % 16;
    }
  }

  /** The hex form of a uuid determines it: `int(u.hex, 16) == u.int`. */
  lemma UuidHexRoundTrip(u: Uuid)
    ensures HexValue(UuidHex(u)) == u
  {
    Pow16Of32();
    HexDigitsValue(u, 32);
  }

  /** Three uuid4 draws give a 96-character verifier, inside the 43..128
      range and character set that section 4.1 of RFC 7636 demands. */
  lemma VerifierMeetsRfc7636(uuids: seq<Uuid>)
    requires |uuids| == 3
    ensures |CodeVerifier(uuids)| == 96
    ensures 43 <= |CodeVerifier(uuids)| <= 128
    ensures forall i :: 0 <= i < 96 ==> IsUnreserved(CodeVerifier(uuids)[i])
  {
  }

  // ---------------------------------------------------------------------
  // URL-safe base64 (section 5 of RFC 4648)
  // ---------------------------------------------------------------------

  predicate IsBase64UrlChar(c: char) {
    'A' <= c <= 'Z' || 'a' <= c <= 'z' || '0' <= c <= '9' || c == '-' || c == '_'
  }

  /** The letter of the URL-safe alphabet for a 6-bit value. */
  function Symbol(i: sextet): (c: char)
    ensures IsBase64UrlChar(c) && IsUnreserved(c) && c != '='
    ensures SymbolValue(c) == i
  {
    if i < 26 then (65 + i) as char
    else if i < 52 then (97 + i - 26) as char
    else if i < 62 then (48 + i - 52) as char
    else if i == 62 then '-'
    else '_'
  }

  /** The 6-bit value a letter of the URL-safe alphabet stands for. */
  function SymbolValue(c: char): sextet
    requires IsBase64UrlChar(c)
  {
    if 'A' <= c <= 'Z' then c as int - 65
    else if 'a' <= c <= 'z' then c as int - 97 + 26
    else if '0' <= c <= '9' then c as int - 48 + 52
    else if c == '-' then 62
    else 63
  }

  /** Base64 without padding: every 3 bytes become 4 letters; a final pair
      of bytes becomes 3 letters and a final single byte 2 letters. */
  function EncodeUnpadded(d: seq<byte>): (s: string)
    ensures |s| == (4 * |d| + 2) / 3
    ensures forall i :: 0 <= i < |s| ==> IsBase64UrlChar(s[i]) && IsUnreserved(s[i])
    decreases |d|
  {
    if |d| == 0 then ""
    else if |d| == 1 then [Symbol(d[0] / 4), Symbol(d[0] % 4 * 16)]
    else if |d| == 2 then [Symbol(d[0] / 4), Symbol(d[0] % 4 * 16 + d[1] / 16), Symbol(d[1] % 16 * 4)]
    else Group(d[0], d[1], d[2]) + EncodeUnpadded(d[3..])
  }

  /** The four letters of three bytes. */
  function Group(b0: byte, b1: byte, b2: byte): string {
    [Symbol(b0 / 4), Symbol(b0 % 4 * 16 + b1 / 16), Symbol(b1 % 16 * 4 + b2 / 64), Symbol(b2 % 64)]
  }

  /** `base64.urlsafe_b64encode`: the unpadded letters followed by as many
      '=' as bring the length to a multiple of four. */
  function Base64UrlEncode(d: seq<byte>): string {
    EncodeUnpadded(d) + (if |d| % 3 == 1 then "==" else if |d| % 3 == 2 then "=" else "")
  }

  /** Decoding of unpadded URL-safe base64; `None` for a letter outside
      the alphabet or a length that no byte string encodes to. */
  function DecodeUnpadded(s: string): Option<seq<byte>>
    decreases |s|
  {
    if |s| == 0 then Some([])
    else if |s| == 1 then None
    else if !IsBase64UrlChar(s[0]) || !IsBase64UrlChar(s[1]) then None
    else
      var v0, v1 := SymbolValue(s[0]), SymbolValue(s[1]);
      if |s| == 2 then Some([v0 * 4 + v1 / 16])
      else if !IsBase64UrlChar(s[2]) then None
      else
        var v2 := SymbolValue(s[2]);
        if |s| == 3 then Some([v0 * 4 + v1 / 16, v1 % 16 * 16 + v2 / 4])
        else if !IsBase64UrlChar(s[3]) then None
        else
          var v3 := SymbolValue(s[3]);
          match DecodeUnpadded(s[4..])
          case None => None
          case Some(rest) => Some([v0 * 4 + v1 / 16, v1 % 16 * 16 + v2 / 4, v2 % 4 * 64 + v3] + rest)
  }

  /** The arithmetic of one group: regrouping 8-bit values into 6-bit ones
      and back is the identity. */
  lemma RegroupBits(b0: byte, b1: byte, b2: byte)
    ensures b0 / 4 * 4 + (b0 % 4 * 16 + b1 / 16) / 16 == b0
    ensures (b0 % 4 * 16 + b1 / 16) % 16 * 16 + (b1 % 16 * 4 + b2 / 64) / 4 == b1
    ensures (b1 % 16 * 4 + b2 / 64) % 4 * 64 + b2 % 64 == b2
  {
  }

  /** A whole group decodes to its three bytes, ahead of what follows. */
  lemma DecodeGroup(b0: byte, b1: byte, b2: byte, t: string, rest: seq<byte>)
    requires DecodeUnpadded(t) == Some(rest)
    ensures DecodeUnpadded(Group(b0, b1, b2) + t) == Some([b0, b1, b2] + rest)
  {
    var s := Group(b0, b1, b2) + t;
    assert s[4..] == t;
    RegroupBits(b0, b1, b2);
  }

  /** Decoding undoes encoding: the challenge loses no bit of the digest. */
  lemma {:induction false} DecodeEncodeUnpadded(d: seq<byte>)
    ensures DecodeUnpadded(EncodeUnpadded(d)) == Some(d)
    decreases |d|
  {
    if |d| == 1 {
      RegroupBits(d[0], 0, 0);
      assert d == [d[0]];
    } else if |d| == 2 {
      RegroupBits(d[0], d[1], 0);
      assert d == [d[0], d[1]];
    } else if |d| >= 3 {
      var rest := d[3..];
      assert EncodeUnpadded(d) == Group(d[0], d[1], d[2]) + EncodeUnpadded(rest);
      DecodeEncodeUnpadded(rest);
      DecodeGroup(d[0], d[1], d[2], EncodeUnpadded(rest), rest);
      SplitThree(d);
    }
  }

  lemma SplitThree(d: seq<byte>)
    requires |d| >= 3
    ensures [d[0], d[1], d[2]] + d[3..] == d
  {
    assert d == d[..3] + d[3..];
  }

  /** `str.rstrip(c)`: drop every trailing `c`. */
  function RStrip(s: string, c: char): (r: string)
    ensures |r| <= |s| && r == s[..|r|]
    ensures r == [] || r[|r| - 1] != c
    ensures forall i :: |r| <= i < |s| ==> s[i] == c
  {
    if s != [] && s[|s| - 1] == c then RStrip(s[..|s| - 1], c) else s
  }

  /** Stripping a run of `c` from a string that does not itself end in `c`
      gives back that string. */
  lemma {:induction false} RStripSuffix(u: string, pad: string, c: char)
    requires u == [] || u[|u| - 1] != c
    requires forall i :: 0 <= i < |pad| ==> pad[i] == c
    ensures RStrip(u + pad, c) == u
    decreases |pad|
  {
    if pad == [] {
      assert u + pad == u;
    } else {
      var shorter := pad[..|pad| - 1];
      assert (u + pad)[..|u + pad| - 1] == u + shorter;
      RStripSuffix(u, shorter, c);
    }
  }

  // ---------------------------------------------------------------------
  // S256 code challenge
  // ---------------------------------------------------------------------

  /** `base64.urlsafe_b64encode(digest).decode().rstrip("=")`. */
  function CodeChallenge(digest: seq<byte>): string {
    RStrip(Base64UrlEncode(digest), '=')
  }

  /** The challenge of a 32-byte SHA-256 digest is its 43-letter unpadded
      URL-safe base64 form, made of characters RFC 7636 allows, and it
      decodes back to the digest (the server's S256 comparison of section
      4.6 of RFC 7636 sees exactly the digest the client hashed). */
  lemma ChallengeOfDigest(digest: seq<byte>)
    requires |digest| == 32
    ensures CodeChallenge(digest) == EncodeUnpadded(digest)
    ensures |CodeChallenge(digest)| == 43
    ensures forall i :: 0 <= i < 43 ==> IsUnreserved(CodeChallenge(digest)[i]) && CodeChallenge(digest)[i] != '='
    ensures DecodeUnpadded(CodeChallenge(digest)) == Some(digest)
  {
    var u := EncodeUnpadded(digest);
    assert |u| == 43;
    assert u[42] != '=';
    RStripSuffix(u, "=", '=');
    DecodeEncodeUnpadded(digest);
  }

  /** The bytes of an ASCII string (`str.encode()` on the hex verifier). */
  function AsciiBytes(s: string): (b: seq<byte>)
    requires forall i :: 0 <= i < |s| ==> s[i] < 128 as char
    ensures |b| == |s|
    ensures forall i :: 0 <= i < |s| ==> b[i] == s[i] as int
  {
    seq(|s|, i requires 0 <= i < |s| => s[i] as int)
  }

  /** The S256 challenge of a verifier, for a given SHA-256. */
  function S256(sha256: seq<byte> -> seq<byte>, verifier: string): string
    requires forall i :: 0 <= i < |verifier| ==> verifier[i] in HexAlphabet
  {
    CodeChallenge(sha256(AsciiBytes(verifier)))
  }
}
