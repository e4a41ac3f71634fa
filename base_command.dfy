/** BaseCommand: the options the request commands share. A key type's
    password falls back to the shared key password; the command's own key
    loader acts on plain and encrypted PEM key pairs only. */
module BaseCommand {
  import opened Wrappers
  import opened Pkix
  import opened KeyTypes
  import opened PemObjects

  /** The password options; each is absent when not given. */
  datatype Passwords = Passwords(
    encPass: Option<string>,
    sigPass: Option<string>,
    tlsPass: Option<string>,
    keyPass: Option<string>)

  /** The password option of a key type. */
  function SpecificPass(p: Passwords, t: KeyType): Option<string> {
    match t
    case SIG => p.sigPass
    case ENC => p.encPass
    case TLS => p.tlsPass
  }

  /** passForType: the type's own password, otherwise the shared one. */
  function PassForType(p: Passwords, t: KeyType): (r: Option<string>)
    ensures SpecificPass(p, t).Some? ==> r == SpecificPass(p, t)
    ensures SpecificPass(p, t).None? ==> r == p.keyPass
    ensures r.None? <==> SpecificPass(p, t).None? && p.keyPass.None?
  {
    SpecificPass(p, t).Or(p.keyPass)
  }

  /** Each type reads its own option: a password given for one type is never
      used for another while that type has its own. */
  lemma PassForTypeSelects(p: Passwords)
    ensures p.sigPass.Some? ==> PassForType(p, SIG) == p.sigPass
    ensures p.encPass.Some? ==> PassForType(p, ENC) == p.encPass
    ensures p.tlsPass.Some? ==> PassForType(p, TLS) == p.tlsPass
    ensures p.keyPass.Some? ==> forall t: KeyType :: PassForType(p, t).Some?
  {
  }

  const NotPemEncodedEcKey: string := "not a PEM encoded EC key."

  /** The outcome of loading a key file: the first plain or encrypted PEM key
      pair decides; an encrypted one is opened with the supplied password or
      a prompt (decryptPem), whose failure propagates. */
  function LoadResult(objects: seq<PemObject>, path: string, pass: Option<string>,
                      decryptPem: (EncryptedKey, PasswordSource) -> Result<KeyPair, string>)
    : (r: Result<KeyPair, KeyLoadError>)
    ensures FirstAccepted(BaseCommandLoader, objects).None? ==> r == Failure(IllegalArgument(NotPemEncodedEcKey))
    ensures r.Failure? ==> r.error.IllegalArgument? || r.error.DecryptionFailed?
    ensures r.Success? ==> exists i | 0 <= i < |objects| ::
      objects[i] == PemKeyPair(r.value) || objects[i].PemEncryptedKeyPair?
    ensures r.Failure? && r.error.DecryptionFailed? ==>
      exists i | 0 <= i < |objects| :: objects[i].PemEncryptedKeyPair?
    // The first key pair of either kind decides: a plain one is the result, an
    // encrypted one is opened with the supplied password or a prompt naming
    // the file, and its decryption failure is the error.
    ensures FirstAccepted(BaseCommandLoader, objects).Some? ==>
      var obj := objects[FirstAccepted(BaseCommandLoader, objects).value];
      && (obj.PemKeyPair? ==> r == Success(obj.keyPair))
      && (obj.PemEncryptedKeyPair? ==>
            var d := decryptPem(obj.encryptedPair, PasswordSourceFor(pass, path));
            r == if d.Success? then Success(d.value) else Failure(DecryptionFailed(d.error)))
  {
    match FirstAccepted(BaseCommandLoader, objects)
    case None => Failure(IllegalArgument(NotPemEncodedEcKey))
    case Some(i) =>
      match objects[i]
      case PemKeyPair(kp) => Success(kp)
      case PemEncryptedKeyPair(e) =>
        (match decryptPem(e, PasswordSourceFor(pass, path))
         case Success(kp) => Success(kp)
         case Failure(msg) => Failure(DecryptionFailed(msg)))
  }

  /** loadKeyPair. */
  method LoadKeyPair(objects: seq<PemObject>, path: string, pass: Option<string>,
                     decryptPem: (EncryptedKey, PasswordSource) -> Result<KeyPair, string>)
    returns (r: Result<KeyPair, KeyLoadError>)
    ensures r == LoadResult(objects, path, pass, decryptPem)
  {
    for i := 0 to |objects|
      invariant forall j | 0 <= j < i :: !Accepts(BaseCommandLoader, objects[j])
    {
      var parsed := objects[i];
      if parsed.PemKeyPair? {
        return Success(parsed.keyPair);
      } else if parsed.PemEncryptedKeyPair? {
        var decrypted := decryptPem(parsed.encryptedPair, PasswordSourceFor(pass, path));
        if decrypted.Failure? {
          return Failure(DecryptionFailed(decrypted.error));
        }
        return Success(decrypted.value);
      }
    }
    return Failure(IllegalArgument(NotPemEncodedEcKey));
  }

  /** PKCS#8 structures are skipped by this loader: a file holding only
      private-key-info objects is rejected. */
  lemma Pkcs8NotAccepted(objects: seq<PemObject>, path: string, pass: Option<string>,
                         decryptPem: (EncryptedKey, PasswordSource) -> Result<KeyPair, string>)
    requires forall i | 0 <= i < |objects| ::
      objects[i].PrivateKeyInfoObject? || objects[i].Pkcs8EncryptedPrivateKeyInfo?
    ensures LoadResult(objects, path, pass, decryptPem) == Failure(IllegalArgument(NotPemEncodedEcKey))
  {
  }

  /** The first key pair decides, whatever follows it: a plain one is
      returned, an encrypted one is decrypted with the password source for
      the file. */
  lemma {:induction false} FirstKeyPairWins(skipped: seq<PemObject>, obj: PemObject, rest: seq<PemObject>,
                                            path: string, pass: Option<string>,
                                            decryptPem: (EncryptedKey, PasswordSource) -> Result<KeyPair, string>)
    requires forall i | 0 <= i < |skipped| :: !skipped[i].PemKeyPair? && !skipped[i].PemEncryptedKeyPair?
    requires obj.PemKeyPair? || obj.PemEncryptedKeyPair?
    ensures obj.PemKeyPair? ==> LoadResult(skipped + [obj] + rest, path, pass, decryptPem) == Success(obj.keyPair)
    ensures obj.PemEncryptedKeyPair? ==>
      var d := decryptPem(obj.encryptedPair, PasswordSourceFor(pass, path));
      LoadResult(skipped + [obj] + rest, path, pass, decryptPem) ==
        if d.Success? then Success(d.value) else Failure(DecryptionFailed(d.error))
  {
    SkippedPrefix(BaseCommandLoader, skipped, [obj] + rest);
    assert skipped + [obj] + rest == skipped + ([obj] + rest);
    assert (skipped + [obj] + rest)[|skipped|] == obj;
  }
}
