/**
 * `VerifyLicenseToken` (`pkg/crypto/jwt.go`): the RS256 check of a license
 * token in the JWS compact serialization (section 7.1 of RFC 7515): three
 * base64url segments separated by '.', the signature over the first two
 * segments joined by '.', RSASSA-PKCS1-v1_5 with SHA-256 (section 3.3 of
 * RFC 7518). Base64url decoding, SHA-256 and RSA verification are primitives.
 */
module Jwt {
  import opened Wrappers
  import opened Text
  import opened Signing
  import opened SecureConfig

  datatype JwtEnv = JwtEnv(
    rawUrlDecode: string -> Result<Bytes>,
    paddedUrlDecode: string -> Result<Bytes>,
    key: KeyEnv,
    sha256: Bytes -> Bytes,
    verifyPkcs1v15: (RsaKey, Bytes, Bytes) -> bool)

  const FormatError: string := "token format invalid: expected 3 parts"
  const EncodingError: string := "invalid signature encoding"
  const SignatureError: string := "invalid token signature"

  /** The signature bytes: unpadded base64url first, padded base64url when that fails. */
  function SignatureBytes(signature: string, env: JwtEnv): (r: Option<Bytes>)
    ensures env.rawUrlDecode(signature).Ok? ==> r == Some(env.rawUrlDecode(signature).value)
    ensures env.rawUrlDecode(signature).Err? && env.paddedUrlDecode(signature).Ok? ==> r == Some(env.paddedUrlDecode(signature).value)
    ensures r.None? <==> env.rawUrlDecode(signature).Err? && env.paddedUrlDecode(signature).Err?
  {
    match env.rawUrlDecode(signature)
    case Ok(b) => Some(b)
    case Err(_) =>
      match env.paddedUrlDecode(signature)
      case Ok(b) => Some(b)
      case Err(_) => None
  }

  /** `VerifyLicenseToken`: `None` is Go's nil error. */
  function VerifyLicenseToken(token: string, env: JwtEnv): Option<string>
  {
    var parts := Split(token, '.');
    if |parts| != 3 then Some(FormatError)
    else
      var signedContent := parts[0] + "." + parts[1];
      match SignatureBytes(parts[2], env)
      case None => Some(EncodingError)
      case Some(sig) =>
        match GetPublicKey(env.key)
        case Err(e) => Some(e)
        case Ok(pub) =>
          if env.verifyPkcs1v15(pub, env.sha256(Utf8(signedContent)), sig) then None else Some(SignatureError)
  }

  /** The number of '.' in the token. */
  function Dots(token: string): nat
  {
    multiset(token)['.']
  }

  /**
   * The format is rejected exactly when the token does not hold two dots, and
   * then before any decoding: the outcome is the same whatever the primitives.
   */
  lemma FormatChecked(token: string, env: JwtEnv)
    ensures VerifyLicenseToken(token, env) == Some(FormatError) <== Dots(token) != 2
    ensures Dots(token) == 2 ==> VerifyLicenseToken(token, env) != Some(FormatError)
  {
    var r := GetPublicKey(env.key);
    if Dots(token) == 2 && r.Err? {
      assert FormatError[0] == 't';
      assert r.error[0] != 't' by {
        match env.key.decodeKeyConfig()
        case Err(e) => assert r.error == KeyConfigErrorPrefix + e;
        case Ok(_) =>
      }
    }
  }

  /**
   * A token of three segments is exactly the signed content, a dot and the
   * signature: the signature covers the header and the payload as they were
   * sent, with the dot between them.
   */
  lemma SignedContentShape(token: string)
    requires Dots(token) == 2
    ensures var parts := Split(token, '.');
      && |parts| == 3
      && token == (parts[0] + "." + parts[1]) + "." + parts[2]
      && '.' !in parts[2]
  {
    var parts := Split(token, '.');
    JoinThree(parts, '.');
    assert "." == ['.'];
  }

  lemma JoinThree(parts: seq<string>, sep: char)
    requires |parts| == 3
    ensures Join(parts, sep) == parts[0] + [sep] + parts[1] + [sep] + parts[2]
  {
    assert Join(parts[1..][1..], sep) == parts[2] by {
      assert parts[1..][1..] == [parts[2]];
    }
    assert Join(parts[1..], sep) == parts[1] + [sep] + parts[2];
  }

  /**
   * The token is accepted exactly when it has three segments, its signature
   * decodes one way or the other, the key loads, and RSA verifies the SHA-256
   * of the signed content; a key-load failure is reported with the key's own error.
   */
  lemma AcceptedIff(token: string, env: JwtEnv)
    ensures var parts := Split(token, '.');
      && (VerifyLicenseToken(token, env).None? <==>
            && |parts| == 3
            && SignatureBytes(parts[2], env).Some?
            && GetPublicKey(env.key).Ok?
            && env.verifyPkcs1v15(GetPublicKey(env.key).value, env.sha256(Utf8(parts[0] + "." + parts[1])),
                 SignatureBytes(parts[2], env).value))
      && (|parts| == 3 && SignatureBytes(parts[2], env).Some? && GetPublicKey(env.key).Err? ==>
            VerifyLicenseToken(token, env) == Some(GetPublicKey(env.key).error))
      && (|parts| == 3 && SignatureBytes(parts[2], env).None? ==> VerifyLicenseToken(token, env) == Some(EncodingError))
  {
  }

  /**
   * The padded decoder is only a fallback: while the unpadded one reads the
   * signature, the padded one is never consulted, and once the unpadded one
   * fails, the token is checked exactly as if the padded reading were the only one.
   */
  lemma PaddedFallback(token: string, env: JwtEnv, other: string -> Result<Bytes>)
    requires |Split(token, '.')| == 3
    ensures var sig := Split(token, '.')[2];
      && (env.rawUrlDecode(sig).Ok? ==>
            VerifyLicenseToken(token, env.(paddedUrlDecode := other)) == VerifyLicenseToken(token, env))
      && (env.rawUrlDecode(sig).Err? ==>
            VerifyLicenseToken(token, env) == VerifyLicenseToken(token, env.(rawUrlDecode := env.paddedUrlDecode)))
  {
    var sig := Split(token, '.')[2];
    if env.rawUrlDecode(sig).Ok? {
      SameReadingSameVerdict(token, env, env.(paddedUrlDecode := other));
    } else {
      SameReadingSameVerdict(token, env, env.(rawUrlDecode := env.paddedUrlDecode));
    }
  }

  /** The verdict depends on the decoders only through the signature bytes they read. */
  lemma SameReadingSameVerdict(token: string, env: JwtEnv, env': JwtEnv)
    requires |Split(token, '.')| == 3
    requires env'.key == env.key && env'.sha256 == env.sha256 && env'.verifyPkcs1v15 == env.verifyPkcs1v15
    requires SignatureBytes(Split(token, '.')[2], env') == SignatureBytes(Split(token, '.')[2], env)
    ensures VerifyLicenseToken(token, env') == VerifyLicenseToken(token, env)
  {
  }
}
