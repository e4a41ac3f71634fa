/** The objects a PEM parser yields from a key file, the password source an
    encrypted key is opened with, and the first-match scan the three key
    loaders share. */
module PemObjects {
  import opened Wrappers
  import opened Pkix

  /** Encrypted key material; its content is opaque. */
  datatype EncryptedKey = EncryptedKey(blob: nat)

  /** A PKCS#8 PrivateKeyInfo: the key's algorithm identifier, the private
      key, and the public key embedded in the EC private key structure, a
      field that structure may omit. */
  datatype PrivateKeyInfo = PrivateKeyInfo(algorithm: KeyAlgorithm, privateKey: nat, embeddedPublicKey: Option<nat>)

  datatype PemObject =
    | PemKeyPair(keyPair: KeyPair)
    | PemEncryptedKeyPair(encryptedPair: EncryptedKey)
    | PrivateKeyInfoObject(info: PrivateKeyInfo)
    | Pkcs8EncryptedPrivateKeyInfo(encryptedInfo: EncryptedKey)
    | OtherPemObject(pemType: string)

  /** Where the password of an encrypted key comes from: the command line,
      or a console prompt naming the key file. */
  datatype PasswordSource = Supplied(password: string) | Prompted(path: string)

  /** The supplied password when present, otherwise a prompt for the file. */
  function PasswordSourceFor(pass: Option<string>, path: string): (src: PasswordSource)
    ensures pass.Some? <==> src.Supplied?
    ensures pass.Some? ==> src.password == pass.value
    ensures pass.None? ==> src.path == path
  {
    match pass
    case Some(p) => Supplied(p)
    case None => Prompted(path)
  }

  /** Why a key file cannot be turned into a key pair. */
  datatype KeyLoadError =
    | CannotLoadKey(message: string)        // CannotLoadKey
    | DecryptionFailed(message: string)     // an IOException from decrypting a PEM key pair
    | IllegalArgument(message: string)      // IllegalArgumentException
    | MissingPublicKey                      // NullPointerException: no public key in an EC private key

  /** The object kinds each loader acts on. */
  datatype Loader = KeyPairUtilLoader | BaseCommandLoader | GeneratorLoader

  predicate Accepts(loader: Loader, obj: PemObject) {
    match loader
    case KeyPairUtilLoader => !obj.OtherPemObject?
    case BaseCommandLoader => obj.PemKeyPair? || obj.PemEncryptedKeyPair?
    case GeneratorLoader => obj.PemKeyPair?
  }

  /** The position of the first object the loader acts on. */
  function FirstAccepted(loader: Loader, objects: seq<PemObject>): (r: Option<nat>)
    ensures r.None? <==> forall i | 0 <= i < |objects| :: !Accepts(loader, objects[i])
    ensures r.Some? ==>
      && r.value < |objects|
      && Accepts(loader, objects[r.value])
      && forall j | 0 <= j < r.value :: !Accepts(loader, objects[j])
    decreases |objects|
  {
    if objects == [] then None
    else if Accepts(loader, objects[0]) then Some(0)
    else
      var r := FirstAccepted(loader, objects[1..]);
      assert forall i | 1 <= i < |objects| :: objects[i] == objects[1..][i - 1];
      if r.Some? then Some(r.value + 1) else None
  }

  /** Objects the loader skips in front of the file change nothing. */
  lemma {:induction false} SkippedPrefix(loader: Loader, skipped: seq<PemObject>, rest: seq<PemObject>)
    requires forall i | 0 <= i < |skipped| :: !Accepts(loader, skipped[i])
    ensures FirstAccepted(loader, skipped + rest) ==
      if FirstAccepted(loader, rest).Some? then Some(FirstAccepted(loader, rest).value + |skipped|) else None
  {
    var r := FirstAccepted(loader, rest);
    var all := skipped + rest;
    if r.Some? {
      assert all[|skipped| + r.value] == rest[r.value];
      forall j | 0 <= j < |skipped| + r.value ensures !Accepts(loader, all[j]) {
        if j < |skipped| { assert all[j] == skipped[j]; } else { assert all[j] == rest[j - |skipped|]; }
      }
    } else {
      forall j | 0 <= j < |all| ensures !Accepts(loader, all[j]) {
        if j < |skipped| { assert all[j] == skipped[j]; } else { assert all[j] == rest[j - |skipped|]; }
      }
    }
  }
}
