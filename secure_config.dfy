/**
 * The obfuscated constants of `pkg/crypto/secure_config.go`: the API address,
 * stored base64-encoded and reversed rune by rune, and the license public key,
 * stored as base64 of a PEM block.
 *
 * Base64, PEM and DER decoding are primitives passed in `KeyEnv` and `decodeText`.
 */
module SecureConfig {
  import opened Wrappers
  import opened Text
  import opened Signing

  const ObfuscatedURL: string := "dmVkLm9uZWQuOTktZ25pbGxpYi1zeXMvLzpzcHR0aA=="

  /** `s` read backwards. */
  function Reversed<T>(s: seq<T>): (r: seq<T>)
    ensures |r| == |s|
    ensures forall i :: 0 <= i < |s| ==> r[i] == s[|s| - 1 - i]
  {
    if s == [] then [] else Reversed(s[1..]) + [s[0]]
  }

  /** Reversing twice gives the runes back. */
  lemma ReversedInvolution<T>(s: seq<T>)
    ensures Reversed(Reversed(s)) == s
  {
    var r := Reversed(Reversed(s));
    assert forall i :: 0 <= i < |s| ==> r[i] == s[i];
  }

  /** The loop of `reverse`: swap the outermost pair, then move both indices inward. */
  method ReverseRunes(runes: array<char>)
    modifies runes
    ensures runes[..] == Reversed(old(runes[..]))
  {
    var i, j := 0, runes.Length - 1;
    while i < j
      invariant 0 <= i <= runes.Length && j == runes.Length - 1 - i
      invariant i <= j + 1
      invariant forall k :: 0 <= k < i ==> runes[k] == old(runes[runes.Length - 1 - k])
      invariant forall k :: j < k < runes.Length ==> runes[k] == old(runes[runes.Length - 1 - k])
      invariant forall k :: i <= k <= j ==> runes[k] == old(runes[k])
    {
      runes[i], runes[j] := runes[j], runes[i];
      i, j := i + 1, j - 1;
    }
  }

  /** `reverse`: the string as runes, reversed in place, back to a string. */
  method Reverse(s: string) returns (r: string)
    ensures r == Reversed(s)
  {
    var runes := new char[|s|](i requires 0 <= i < |s| => s[i]);
    assert runes[..] == s;
    ReverseRunes(runes);
    r := runes[..];
  }

  /** `GetAPIURL`: the decoded constant reversed; `decodeText` is base64 decoding read as text, errors ignored. */
  function ApiUrl(decodeText: string -> string): (url: string)
    ensures Reversed(url) == decodeText(ObfuscatedURL)
  {
    ReversedInvolution(decodeText(ObfuscatedURL));
    Reversed(decodeText(ObfuscatedURL))
  }

  method GetAPIURL(decodeText: string -> string) returns (url: string)
    ensures url == ApiUrl(decodeText)
  {
    var decoded := decodeText(ObfuscatedURL);
    url := Reverse(decoded);
  }

  // ---------------------------------------------------------------- the public key

  /** What DER parsing of a public key may yield. */
  datatype PublicKey = RsaPublic(key: RsaKey) | OtherPublic

  datatype KeyEnv = KeyEnv(
    decodeKeyConfig: () -> Result<Bytes>,
    pemDecode: Bytes -> Option<PemBlock>,
    parsePkix: Bytes -> Result<PublicKey>)

  const KeyConfigErrorPrefix: string := "error decoding key config: "
  const PemError: string := "failed to parse PEM block containing the key"
  const DerErrorPrefix: string := "failed to parse DER encoded public key: "
  const NotRsaError: string := "key type is not RSA"

  /** `GetPublicKey`: decode, take the first PEM block, parse it, and accept only an RSA key. */
  function GetPublicKey(env: KeyEnv): (r: Result<RsaKey>)
    ensures r.Ok? <==>
      && env.decodeKeyConfig().Ok?
      && env.pemDecode(env.decodeKeyConfig().value).Some?
      && env.parsePkix(env.pemDecode(env.decodeKeyConfig().value).value.bytes).Ok?
      && env.parsePkix(env.pemDecode(env.decodeKeyConfig().value).value.bytes).value.RsaPublic?
    ensures r.Ok? ==> env.parsePkix(env.pemDecode(env.decodeKeyConfig().value).value.bytes) == Ok(RsaPublic(r.value))
    ensures env.decodeKeyConfig().Err? ==> r == Err(KeyConfigErrorPrefix + env.decodeKeyConfig().error)
  {
    match env.decodeKeyConfig()
    case Err(e) => Err(KeyConfigErrorPrefix + e)
    case Ok(pemData) =>
      match env.pemDecode(pemData)
      case None => Err(PemError)
      case Some(block) =>
        match env.parsePkix(block.bytes)
        case Err(e) => Err(DerErrorPrefix + e)
        case Ok(RsaPublic(k)) => Ok(k)
        case Ok(OtherPublic) => Err(NotRsaError)
  }
}
