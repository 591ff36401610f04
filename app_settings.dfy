/**
 * The checks `app.go` runs on what the user types before anything reaches the
 * backend or the database: the license key format of `ActivateLicense`, and the
 * storage path, RUC and SMTP host checks of `SaveEmisorConfig`.
 */
module Settings {
  import opened Wrappers
  import opened Text

  // ---------------------------------------------------------------- the license key

  const EmptyKeyError: string := "Error: La clave de licencia no puede estar vacía"
  const KeyFormatError: string := "Error: Formato de licencia inválido. Debe ser KSH-XXXX-XXXX-XXXX"
  const KeyPrefix: string := "KSH-"

  /** The character class `[A-Z0-9]`. */
  predicate KeyChar(c: char)
  {
    'A' <= c <= 'Z' || '0' <= c <= '9'
  }

  /** `[A-Z0-9]{4}`. */
  predicate KeyGroup(g: string)
  {
    |g| == 4 && forall i :: 0 <= i < 4 ==> KeyChar(g[i])
  }

  /** `^KSH-[A-Z0-9]{4}-[A-Z0-9]{4}-[A-Z0-9]{4}$`, position by position. */
  predicate MatchesKeyPattern(key: string)
  {
    && |key| == 18
    && key[..4] == KeyPrefix
    && key[8] == '-' && key[13] == '-'
    && forall i :: 4 <= i < 18 && i != 8 && i != 13 ==> KeyChar(key[i])
  }

  /** The key built from three groups. */
  function LicenseKey(a: string, b: string, c: string): string
  {
    KeyPrefix + a + "-" + b + "-" + c
  }

  /** `ActivateLicense` up to the backend call: `None` when the key may be sent. */
  function LicenseKeyError(key: string): Option<string>
  {
    if key == "" then Some(EmptyKeyError)
    else if !MatchesKeyPattern(key) then Some(KeyFormatError)
    else None
  }

  /** Every key made of three groups of four capitals or digits passes the pattern. */
  lemma GroupsMatch(a: string, b: string, c: string)
    requires KeyGroup(a) && KeyGroup(b) && KeyGroup(c)
    ensures MatchesKeyPattern(LicenseKey(a, b, c))
  {
    var key := LicenseKey(a, b, c);
    assert key[..4] == KeyPrefix;
    assert forall i :: 4 <= i < 8 ==> key[i] == a[i - 4];
    assert forall i :: 9 <= i < 13 ==> key[i] == b[i - 9];
    assert forall i :: 14 <= i < 18 ==> key[i] == c[i - 14];
  }

  /** Every key the pattern accepts is made of three such groups. */
  lemma MatchedGroups(key: string)
    requires MatchesKeyPattern(key)
    ensures KeyGroup(key[4..8]) && KeyGroup(key[9..13]) && KeyGroup(key[14..])
    ensures key == LicenseKey(key[4..8], key[9..13], key[14..])
  {
    assert KeyGroup(key[4..8]) by {
      assert forall i :: 0 <= i < 4 ==> key[4..8][i] == key[i + 4];
    }
    assert KeyGroup(key[9..13]) by {
      assert forall i :: 0 <= i < 4 ==> key[9..13][i] == key[i + 9];
    }
    assert KeyGroup(key[14..]) by {
      assert forall i :: 0 <= i < 4 ==> key[14..][i] == key[i + 14];
    }
    assert key == key[..4] + key[4..8] + [key[8]] + key[9..13] + [key[13]] + key[14..];
  }

  /**
   * A key is sent to the backend exactly when it is three groups of four capitals
   * or digits behind "KSH-"; an empty key gets its own message.
   */
  lemma LicenseKeyAccepted(key: string)
    ensures LicenseKeyError(key).None? <==> MatchesKeyPattern(key)
    ensures key == "" ==> LicenseKeyError(key) == Some(EmptyKeyError)
    ensures key != "" && LicenseKeyError(key).Some? ==> LicenseKeyError(key) == Some(KeyFormatError)
  {
  }

  // ---------------------------------------------------------------- the emitter settings

  const MissingPathError: string := "Error: La ruta de almacenamiento no existe"
  const RucLengthError: string := "Error: El RUC debe tener exactamente 13 dígitos"
  const SmtpTypoError: string := "Error: Posible error de escritura en servidor SMTP. ¿Quiso decir 'smtp'?"
  const SmtpTypo: string := "smpt"

  /**
   * The checks `SaveEmisorConfig` makes before the certificate is validated and
   * anything is encrypted or saved. `pathMissing` says whether `os.Stat` of a
   * path fails with a "does not exist" error; the RUC length is its byte length.
   */
  function ConfigPrecheck(storagePath: string, ruc: string, smtpHost: string, pathMissing: string -> bool): Option<string>
  {
    if storagePath != "" && pathMissing(storagePath) then Some(MissingPathError)
    else if ByteLen(ruc) != 13 then Some(RucLengthError)
    else if Contains(smtpHost, SmtpTypo) then Some(SmtpTypoError)
    else None
  }

  /**
   * Settings pass exactly when the storage path is empty or exists, the RUC is
   * thirteen bytes and the host does not contain "smpt"; a missing path is
   * reported before anything else, and a RUC of the wrong length before the host.
   */
  lemma ConfigPrecheckOutcome(storagePath: string, ruc: string, smtpHost: string, pathMissing: string -> bool)
    ensures var r := ConfigPrecheck(storagePath, ruc, smtpHost, pathMissing);
      && (r.None? <==> (storagePath == "" || !pathMissing(storagePath)) && ByteLen(ruc) == 13 && !Contains(smtpHost, SmtpTypo))
      && (storagePath != "" && pathMissing(storagePath) ==> r == Some(MissingPathError))
      && (r.Some? && r != Some(MissingPathError) && ByteLen(ruc) != 13 ==> r == Some(RucLengthError))
  {
  }

  /** A host with the letters swapped is refused even with a correct RUC; the correct spelling is not. */
  lemma SmtpTypoCaught(storagePath: string, ruc: string, pathMissing: string -> bool)
    requires storagePath == "" && ByteLen(ruc) == 13
    ensures ConfigPrecheck(storagePath, ruc, "smpt.gmail.com", pathMissing) == Some(SmtpTypoError)
    ensures ConfigPrecheck(storagePath, ruc, "smtp.gmail.com", pathMissing) == None
  {
    ContainsAt("smpt.gmail.com", SmtpTypo, 0);
    NoTypo("smtp.gmail.com");
  }

  lemma NoTypo(host: string)
    requires forall i :: 0 <= i < |host| ==> host[i] != 'p' || i == 0 || host[i - 1] != 'm' || i < 2 || host[i - 2] != 's'
    ensures !Contains(host, SmtpTypo)
  {
    forall j | 0 <= j && j + 4 <= |host|
      ensures !OccursAt(host, SmtpTypo, j)
    {
      var w := host[j..j + 4];
      assert w[0] == host[j] && w[1] == host[j + 1] && w[2] == host[j + 2];
    }
  }
}
