/** KeyPairUtil: load an EC key pair from the objects of a PEM file. The
    first key object of any of four kinds decides; encrypted kinds are opened
    with the supplied password or one prompted for; conversion failures are
    reported as CannotLoadKey. */
module KeyPairUtil {
  import opened Wrappers
  import opened Pkix
  import opened PemObjects

  /** The toolkit operations the loader calls, as functions of their inputs:
      decrypting a PEM key pair (failing with the message of an IOException),
      decrypting a PKCS#8 structure (None for a PKCSException), and the EC
      key factory's generatePrivate and generatePublic (failing with the
      message of the conversion exception). */
  datatype Toolkit = Toolkit(
    decryptPem: (EncryptedKey, PasswordSource) -> Result<KeyPair, string>,
    decryptPkcs8: (EncryptedKey, PasswordSource) -> Option<PrivateKeyInfo>,
    generatePrivate: PrivateKeyInfo -> Result<PrivateKey, string>,
    generatePublic: (KeyAlgorithm, nat) -> Result<PublicKey, string>)

  const UnsupportedKeyFormat: string := "unsupported key format"
  const CannotDecrypt: string := "cannot decrypt private key"
  const NotAnEcKey: string := "does not look like a EC key"
  const UnableToConvert: string := "unable to convert key pair: "

  /** loadECKeyPair: an EC private key, paired with the public key embedded in
      the private key structure under the same algorithm identifier. An EC
      private key without an embedded public key makes building the public
      key structure dereference null; that NullPointerException is not among
      the exceptions the loader maps, and escapes as MissingPublicKey. */
  function LoadEcKeyPair(info: PrivateKeyInfo, tk: Toolkit): (r: Result<KeyPair, KeyLoadError>)
    ensures r.Failure? ==> r.error.CannotLoadKey? || r.error.MissingPublicKey?
    ensures r.Success? ==>
      && tk.generatePrivate(info) == Success(r.value.priv)
      && r.value.priv.algorithm == Ec
      && info.embeddedPublicKey.Some?
      && tk.generatePublic(info.algorithm, info.embeddedPublicKey.value) == Success(r.value.pub)
    ensures tk.generatePrivate(info).Success? && tk.generatePrivate(info).value.algorithm != Ec ==>
      r == Failure(CannotLoadKey(NotAnEcKey))
    ensures r == Failure(MissingPublicKey) <==>
      && tk.generatePrivate(info).Success? && tk.generatePrivate(info).value.algorithm == Ec
      && info.embeddedPublicKey.None?
  {
    match tk.generatePrivate(info)
    case Failure(msg) => Failure(CannotLoadKey(UnableToConvert + msg))
    case Success(priv) =>
      if priv.algorithm != Ec then Failure(CannotLoadKey(NotAnEcKey))
      else if info.embeddedPublicKey.None? then Failure(MissingPublicKey)
      else
        match tk.generatePublic(info.algorithm, info.embeddedPublicKey.value)
        case Failure(msg) => Failure(CannotLoadKey(UnableToConvert + msg))
        case Success(pub) => Success(KeyPair(pub, priv))
  }

  /** The result of loading one recognised object. */
  function LoadObject(obj: PemObject, path: string, pass: Option<string>, tk: Toolkit)
    : (r: Result<KeyPair, KeyLoadError>)
    requires Accepts(KeyPairUtilLoader, obj)
    // A plain key pair is taken as it is.
    ensures obj.PemKeyPair? ==> r == Success(obj.keyPair)
    // An encrypted key pair is opened with the supplied password, or a prompt
    // naming the file; it loads exactly when that decryption succeeds.
    ensures obj.PemEncryptedKeyPair? ==>
      var d := tk.decryptPem(obj.encryptedPair, PasswordSourceFor(pass, path));
      && (r.Success? <==> d.Success?)
      && (r.Success? ==> r.value == d.value)
      && (r.Failure? ==> r.error == DecryptionFailed(d.error))
    // Only that decryption fails with its own error; every other failure is
    // a CannotLoadKey or the escaping null dereference.
    ensures r.Failure? && !obj.PemEncryptedKeyPair? ==> r.error.CannotLoadKey? || r.error.MissingPublicKey?
    // A PKCS#8 structure that cannot be decrypted fails with "cannot decrypt
    // private key"; a decrypted or plain one goes through loadECKeyPair.
    ensures obj.Pkcs8EncryptedPrivateKeyInfo? &&
            tk.decryptPkcs8(obj.encryptedInfo, PasswordSourceFor(pass, path)).None? ==>
      r == Failure(CannotLoadKey(CannotDecrypt))
    ensures obj.Pkcs8EncryptedPrivateKeyInfo? &&
            tk.decryptPkcs8(obj.encryptedInfo, PasswordSourceFor(pass, path)).Some? ==>
      r == LoadEcKeyPair(tk.decryptPkcs8(obj.encryptedInfo, PasswordSourceFor(pass, path)).value, tk)
    ensures obj.PrivateKeyInfoObject? ==> r == LoadEcKeyPair(obj.info, tk)
    // Keys read from a private-key structure are always EC keys.
    ensures r.Success? && (obj.PrivateKeyInfoObject? || obj.Pkcs8EncryptedPrivateKeyInfo?) ==>
      r.value.priv.algorithm == Ec
  {
    match obj
    case PemKeyPair(kp) => Success(kp)
    case PemEncryptedKeyPair(e) =>
      (match tk.decryptPem(e, PasswordSourceFor(pass, path))
       case Success(kp) => Success(kp)
       case Failure(msg) => Failure(DecryptionFailed(msg)))
    case PrivateKeyInfoObject(info) => LoadEcKeyPair(info, tk)
    case Pkcs8EncryptedPrivateKeyInfo(e) =>
      (match tk.decryptPkcs8(e, PasswordSourceFor(pass, path))
       case None => Failure(CannotLoadKey(CannotDecrypt))
       case Some(info) => LoadEcKeyPair(info, tk))
  }

  /** The outcome of loading a key file: the first recognised object decides. */
  function LoadResult(objects: seq<PemObject>, path: string, pass: Option<string>, tk: Toolkit)
    : (r: Result<KeyPair, KeyLoadError>)
    ensures FirstAccepted(KeyPairUtilLoader, objects).None? ==> r == Failure(CannotLoadKey(UnsupportedKeyFormat))
    ensures FirstAccepted(KeyPairUtilLoader, objects).Some? ==>
      r == LoadObject(objects[FirstAccepted(KeyPairUtilLoader, objects).value], path, pass, tk)
    ensures r.Failure? ==> !r.error.IllegalArgument?
    ensures r.Success? ==> exists i | 0 <= i < |objects| :: !objects[i].OtherPemObject?
  {
    match FirstAccepted(KeyPairUtilLoader, objects)
    case None => Failure(CannotLoadKey(UnsupportedKeyFormat))
    case Some(i) => LoadObject(objects[i], path, pass, tk)
  }

  /** loadKeyPair: reads the parsed objects in order and returns at the first
      recognised one. */
  method LoadKeyPair(objects: seq<PemObject>, path: string, pass: Option<string>, tk: Toolkit)
    returns (r: Result<KeyPair, KeyLoadError>)
    ensures r == LoadResult(objects, path, pass, tk)
  {
    for i := 0 to |objects|
      invariant forall j | 0 <= j < i :: !Accepts(KeyPairUtilLoader, objects[j])
    {
      var parsed := objects[i];
      if parsed.PemKeyPair? {
        return Success(parsed.keyPair);
      } else if parsed.PemEncryptedKeyPair? {
        var decrypted := tk.decryptPem(parsed.encryptedPair, PasswordSourceFor(pass, path));
        if decrypted.Failure? {
          return Failure(DecryptionFailed(decrypted.error));
        }
        return Success(decrypted.value);
      } else if parsed.PrivateKeyInfoObject? {
        return LoadEcKeyPair(parsed.info, tk);
      } else if parsed.Pkcs8EncryptedPrivateKeyInfo? {
        var decrypted := tk.decryptPkcs8(parsed.encryptedInfo, PasswordSourceFor(pass, path));
        if decrypted.None? {
          return Failure(CannotLoadKey(CannotDecrypt));
        }
        return LoadEcKeyPair(decrypted.value, tk);
      }
    }
    return Failure(CannotLoadKey(UnsupportedKeyFormat));
  }

  /** Unrecognised objects in front of a key object are skipped, and the key
      object decides whatever follows it. */
  lemma FirstKeyObjectWins(skipped: seq<PemObject>, obj: PemObject, rest: seq<PemObject>,
                           path: string, pass: Option<string>, tk: Toolkit)
    requires forall i | 0 <= i < |skipped| :: skipped[i].OtherPemObject?
    requires !obj.OtherPemObject?
    ensures LoadResult(skipped + [obj] + rest, path, pass, tk) == LoadObject(obj, path, pass, tk)
  {
    SkippedPrefix(KeyPairUtilLoader, skipped, [obj] + rest);
    assert skipped + [obj] + rest == skipped + ([obj] + rest);
    assert (skipped + [obj] + rest)[|skipped|] == obj;
  }

  /** A file without a key object fails with "unsupported key format". */
  lemma NoKeyObjectFails(objects: seq<PemObject>, path: string, pass: Option<string>, tk: Toolkit)
    requires forall i | 0 <= i < |objects| :: objects[i].OtherPemObject?
    ensures LoadResult(objects, path, pass, tk) == Failure(CannotLoadKey(UnsupportedKeyFormat))
  {
  }

  /** Only a PEM key pair's decryption fails with its own error, and only a
      private-key structure without a public key lets the null dereference
      escape: every other failure is mapped to CannotLoadKey. */
  lemma FailuresAreMapped(objects: seq<PemObject>, path: string, pass: Option<string>, tk: Toolkit)
    requires LoadResult(objects, path, pass, tk).Failure?
    ensures var e := LoadResult(objects, path, pass, tk).error;
      && (e.DecryptionFailed? ==> exists i | 0 <= i < |objects| :: objects[i].PemEncryptedKeyPair?)
      && (e.MissingPublicKey? ==> exists i | 0 <= i < |objects| ::
            objects[i].PrivateKeyInfoObject? || objects[i].Pkcs8EncryptedPrivateKeyInfo?)
      && (e.CannotLoadKey? || e.DecryptionFailed? || e.MissingPublicKey?)
  {
    var r := FirstAccepted(KeyPairUtilLoader, objects);
    if r.Some? {
      var obj := objects[r.value];
      assert obj.PemEncryptedKeyPair? || obj.PrivateKeyInfoObject? || obj.Pkcs8EncryptedPrivateKeyInfo? || obj.PemKeyPair?;
    }
  }
}
