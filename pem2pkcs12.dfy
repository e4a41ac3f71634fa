/** PEM2PKCS12: put a PEM key pair and its certificate chain into a PKCS#12
    keystore under an alias. The keystore is a map from alias to key entry;
    the keystore file on disk is the map it holds, or absent. */
module Pem2Pkcs12 {
  import opened Wrappers
  import opened Pkix
  import opened PemObjects
  import opened X509Util
  import KeyPairUtil

  /** A private-key entry: the key, its protection password and its chain. */
  datatype KeyEntry = KeyEntry(key: PrivateKey, password: string, chain: seq<Certificate>)

  /** A PKCS#12 keystore held in memory. */
  class KeyStore {
    var entries: map<string, KeyEntry>

    /** load(null, pass): an empty keystore. */
    constructor Empty()
      ensures entries == map[]
    {
      entries := map[];
    }

    /** load(stream, pass): the entries stored in the file. */
    constructor Loaded(stored: map<string, KeyEntry>)
      ensures entries == stored
    {
      entries := stored;
    }

    /** setKeyEntry: the alias now maps to the entry; no other alias changes. */
    method SetKeyEntry(alias: string, key: PrivateKey, password: string, chain: seq<Certificate>)
      modifies this
      ensures entries == old(entries)[alias := KeyEntry(key, password, chain)]
    {
      entries := entries[alias := KeyEntry(key, password, chain)];
    }
  }

  /** The entries of the keystore file, if it is a regular file. */
  function StoredEntries(stored: Option<map<string, KeyEntry>>): map<string, KeyEntry> {
    if stored.Some? then stored.value else map[]
  }

  /** loadKeyStore: the stored keystore when the path names a regular file
      (stored is Some), otherwise a fresh empty one. */
  method LoadKeyStore(stored: Option<map<string, KeyEntry>>) returns (ks: KeyStore)
    ensures fresh(ks)
    ensures ks.entries == StoredEntries(stored)
  {
    if stored.Some? {
      ks := new KeyStore.Loaded(stored.value);
    } else {
      ks := new KeyStore.Empty();
    }
  }

  /** How the keystore file is opened for writing: CREATE_NEW, as written,
      fails when the file exists; CREATE with TRUNCATE_EXISTING replaces it. */
  datatype OpenOption = CreateNew | CreateOrTruncate

  predicate Opens(option: OpenOption, fileExists: bool) {
    option == CreateOrTruncate || !fileExists
  }

  datatype Pkcs12Error =
    | AliasExists
    | KeyLoadFailed(keyError: KeyLoadError)
    | FileAlreadyExists
    | NoCertificate
    | CertificateMismatch(keyPairKey: PublicKey, certificateKey: PublicKey)

  /** What call leaves behind when it returns normally: the keystore file
      written, or the invalid chain logged and nothing written. */
  datatype Pkcs12Outcome =
    | Written(entries: map<string, KeyEntry>)
    | ChainRejected(reason: InvalidCertificateChain)

  /** The outcome of call, given the keystore file found at the output path,
      the outcome of loading the key pair, the certificate file's
      certificates and those of each trusted file. */
  function ConvertOutcome(option: OpenOption, stored: Option<map<string, KeyEntry>>, alias: string,
                          key: Result<KeyPair, KeyLoadError>, certificate: seq<Certificate>,
                          trusted: seq<seq<Certificate>>, storePass: string)
    : (r: Result<Pkcs12Outcome, Pkcs12Error>)
    ensures alias in StoredEntries(stored) ==> r == Failure(AliasExists)
    ensures alias !in StoredEntries(stored) && key.Failure? ==> r == Failure(KeyLoadFailed(key.error))
    ensures r.Success? && r.value.ChainRejected? ==>
      !CompleteChain(certificate + Flatten(trusted)) && r.value.reason == ChainError(certificate + Flatten(trusted)).value
    ensures r.Success? && r.value.Written? ==>
      && key.Success? && alias !in StoredEntries(stored)
      && CompleteChain(certificate + Flatten(trusted))
      && alias in r.value.entries
      && r.value.entries[alias] == KeyEntry(key.value.priv, storePass, certificate + Flatten(trusted))
      && r.value.entries.Keys == StoredEntries(stored).Keys + {alias}
      && (forall a | a in StoredEntries(stored) :: r.value.entries[a] == StoredEntries(stored)[a])
    ensures alias !in StoredEntries(stored) && key.Success? && !CompleteChain(certificate + Flatten(trusted)) ==>
      r == Success(ChainRejected(ChainError(certificate + Flatten(trusted)).value))
    ensures alias !in StoredEntries(stored) && key.Success? && CompleteChain(certificate + Flatten(trusted))
            && Opens(option, stored.Some?) ==>
      r == Success(Written(StoredEntries(stored)[alias := KeyEntry(key.value.priv, storePass, certificate + Flatten(trusted))]))
    ensures r == Failure(FileAlreadyExists) <==>
      && !Opens(option, stored.Some?)
      && alias !in StoredEntries(stored) && key.Success? && CompleteChain(certificate + Flatten(trusted))
  {
    var entries := StoredEntries(stored);
    if alias in entries then Failure(AliasExists)
    else if key.Failure? then Failure(KeyLoadFailed(key.error))
    else
      var chain := certificate + Flatten(trusted);
      match ChainError(chain)
      case Some(reason) => Success(ChainRejected(reason))
      case None =>
        if !Opens(option, stored.Some?) then Failure(FileAlreadyExists)
        else Success(Written(entries[alias := KeyEntry(key.value.priv, storePass, chain)]))
  }

  /** call. The key pair is read from its file only once the alias is known
      to be free; the certificate files are given as their certificates. */
  method Call(option: OpenOption, stored: Option<map<string, KeyEntry>>, alias: string,
              keyFile: seq<PemObject>, keyPath: string, keyPass: Option<string>, tk: KeyPairUtil.Toolkit,
              certificate: seq<Certificate>, trusted: seq<seq<Certificate>>, storePass: string)
    returns (r: Result<Pkcs12Outcome, Pkcs12Error>)
    ensures r == ConvertOutcome(option, stored, alias, KeyPairUtil.LoadResult(keyFile, keyPath, keyPass, tk),
                                certificate, trusted, storePass)
  {
    var keyStore := LoadKeyStore(stored);
    if alias in keyStore.entries {
      return Failure(AliasExists);
    }
    var keyPair := KeyPairUtil.LoadKeyPair(keyFile, keyPath, keyPass, tk);
    if keyPair.Failure? {
      return Failure(KeyLoadFailed(keyPair.error));
    }
    var chain := certificate;
    for i := 0 to |trusted|
      invariant chain == certificate + Flatten(trusted[..i])
      invariant keyStore.entries == StoredEntries(stored)
    {
      chain := chain + trusted[i];
      FlattenSnoc(trusted, i);
    }
    assert trusted[..|trusted|] == trusted;
    var invalid := ValidateCertificateChain(chain);
    if invalid.Some? {
      return Success(ChainRejected(invalid.value));
    }
    keyStore.SetKeyEntry(alias, keyPair.value.priv, storePass, chain);
    if !Opens(option, stored.Some?) {
      return Failure(FileAlreadyExists);
    }
    r := Success(Written(keyStore.entries));
  }

  /** As written (CREATE_NEW), a keystore that already exists is never
      extended: whenever the key would be added, writing fails. */
  lemma ExistingStoreNeverExtended(stored: map<string, KeyEntry>, alias: string, key: Result<KeyPair, KeyLoadError>,
                                   certificate: seq<Certificate>, trusted: seq<seq<Certificate>>, storePass: string)
    ensures !ConvertOutcome(CreateNew, Some(stored), alias, key, certificate, trusted, storePass).Success?
         || !ConvertOutcome(CreateNew, Some(stored), alias, key, certificate, trusted, storePass).value.Written?
    ensures alias !in stored && key.Success? && CompleteChain(certificate + Flatten(trusted)) ==>
      ConvertOutcome(CreateNew, Some(stored), alias, key, certificate, trusted, storePass) == Failure(FileAlreadyExists)
  {
  }

  /** Replacing the file instead, an existing keystore gains the new entry and
      keeps every other one, as the option's description promises. */
  lemma ExistingStoreExtended(stored: map<string, KeyEntry>, alias: string, kp: KeyPair,
                              certificate: seq<Certificate>, trusted: seq<seq<Certificate>>, storePass: string)
    requires alias !in stored && CompleteChain(certificate + Flatten(trusted))
    ensures ConvertOutcome(CreateOrTruncate, Some(stored), alias, Success(kp), certificate, trusted, storePass)
         == Success(Written(stored[alias := KeyEntry(kp.priv, storePass, certificate + Flatten(trusted))]))
  {
  }

  /** The keystore pemToPKCS12 returns, as its entries: exactly one entry,
      under alias, holding the key and the certificate file's certificates;
      the key pair's public key must be the first certificate's. */
  function PemToPkcs12Outcome(key: Result<KeyPair, KeyLoadError>, certificate: seq<Certificate>, alias: string,
                              pass: string)
    : (r: Result<map<string, KeyEntry>, Pkcs12Error>)
    ensures r.Success? <==> key.Success? && |certificate| > 0 && key.value.pub == certificate[0].publicKey
    ensures r.Success? ==> r.value.Keys == {alias} && r.value[alias] == KeyEntry(key.value.priv, pass, certificate)
    ensures key.Success? && |certificate| > 0 && key.value.pub != certificate[0].publicKey ==>
      r == Failure(CertificateMismatch(key.value.pub, certificate[0].publicKey))
  {
    if key.Failure? then Failure(KeyLoadFailed(key.error))
    else if |certificate| == 0 then Failure(NoCertificate)
    else if key.value.pub != certificate[0].publicKey then
      Failure(CertificateMismatch(key.value.pub, certificate[0].publicKey))
    else Success(map[alias := KeyEntry(key.value.priv, pass, certificate)])
  }

  /** pemToPKCS12. */
  method PemToPkcs12(keyFile: seq<PemObject>, keyPath: string, keyPass: Option<string>, tk: KeyPairUtil.Toolkit,
                     certificate: seq<Certificate>, alias: string, pass: string)
    returns (r: Result<KeyStore, Pkcs12Error>)
    ensures var spec := PemToPkcs12Outcome(KeyPairUtil.LoadResult(keyFile, keyPath, keyPass, tk), certificate, alias, pass);
      && (r.Success? <==> spec.Success?)
      && (r.Success? ==> fresh(r.value) && r.value.entries == spec.value)
      && (r.Failure? ==> r.error == spec.error)
  {
    var keyPair := KeyPairUtil.LoadKeyPair(keyFile, keyPath, keyPass, tk);
    if keyPair.Failure? {
      return Failure(KeyLoadFailed(keyPair.error));
    }
    if |certificate| == 0 {
      return Failure(NoCertificate);
    }
    var kpPub := keyPair.value.pub;
    var cerPub := certificate[0].publicKey;
    if kpPub != cerPub {
      return Failure(CertificateMismatch(kpPub, cerPub));
    }
    var keyStore := LoadKeyStore(None);
    keyStore.SetKeyEntry(alias, keyPair.value.priv, pass, certificate);
    r := Success(keyStore);
  }
}
