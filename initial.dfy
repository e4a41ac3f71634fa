/** Initial: the command that requests the first certificate triple. It
    loads the three key pairs, builds the subject metadata and asks for a
    signature, an encryption and a TLS certificate. As written, all three
    requests are built from the signature key pair. */
module Initial {
  import opened Wrappers
  import opened Pkix
  import opened KeyTypes
  import opened Triples
  import opened Metadata
  import opened Crmf
  import opened PemObjects
  import opened CsrUtil
  import opened BaseCommand
  import KeyPairUtil

  /** The requests of an initial request collection, built from request id
      `id` on: SIG, ENC and TLS in that order, each from the signature key
      pair, all for the metadata's subject, URI and e-mail. */
  function InitialRequests(id: int, keyPairs: Triple<KeyPair>, m: CsrMetadata)
    : (r: Result<CertReqMessages, RequestError>)
    requires IsInt32(id)
    ensures r.Failure? <==> m.uri.host.None?
    ensures r.Success? ==>
      && r.value.BuiltCertReqMessages?
      && |r.value.arguments| == 3
      && r.value.arguments[0] == Request(id, keyPairs.signature, SIG, ToSubject(m), m.uri, m.email, [], Sha384WithEcdsa).value
      && r.value.arguments[1] == Request(Int32Inc(id), keyPairs.signature, ENC, ToSubject(m), m.uri, m.email, [], Sha384WithEcdsa).value
      && r.value.arguments[2] == Request(Int32Inc(Int32Inc(id)), keyPairs.signature, TLS, ToSubject(m), m.uri, m.email, [], Sha384WithEcdsa).value
  {
    var subject := ToSubject(m);
    var sig := Request(id, keyPairs.signature, SIG, subject, m.uri, m.email, [], Sha384WithEcdsa);
    var enc := Request(Int32Inc(id), keyPairs.signature, ENC, subject, m.uri, m.email, [], Sha384WithEcdsa);
    var tls := Request(Int32Inc(Int32Inc(id)), keyPairs.signature, TLS, subject, m.uri, m.email, [], Sha384WithEcdsa);
    if tls.Failure? then Failure(tls.error)
    else Success(BuiltCertReqMessages([sig.value, enc.value, tls.value]))
  }

  /** Every request of the collection carries the signature key pair's
      public key and the metadata's subject, and the requests ask for the
      SIG, ENC and TLS policies in that order. */
  lemma InitialRequestsShape(id: int, keyPairs: Triple<KeyPair>, m: CsrMetadata)
    requires IsInt32(id) && InitialRequests(id, keyPairs, m).Success?
    ensures var args := InitialRequests(id, keyPairs, m).value.arguments;
      && (forall i | 0 <= i < 3 :: args[i].certReq.publicKey == keyPairs.signature.pub
                                 && args[i].certReq.subject == ToSubject(m))
      && args[0].certReq.extensions[1].value == KeyUsageValue(SIG.KeyUsage())
      && args[1].certReq.extensions[1].value == KeyUsageValue(ENC.KeyUsage())
      && args[2].certReq.extensions[1].value == KeyUsageValue(TLS.KeyUsage())
      && |args[2].certReq.extensions| == 4 && |args[0].certReq.extensions| == 3
  {
  }

  /** The encryption and transport key pairs do not reach the requests. */
  lemma OnlySignatureKeyUsed(id: int, sig: KeyPair, enc1: KeyPair, tls1: KeyPair, enc2: KeyPair,
                             tls2: KeyPair, m: CsrMetadata)
    requires IsInt32(id)
    ensures InitialRequests(id, Triple(enc1, sig, tls1), m) == InitialRequests(id, Triple(enc2, sig, tls2), m)
  {
  }

  /** generateCertReqMessages: three certReqMsg calls on CSRUtil's counter,
      passed on in the order they were built. */
  method GenerateCertReqMessages(counter: RequestIdCounter, keyPairs: Triple<KeyPair>, m: CsrMetadata)
    returns (r: Result<CertReqMessages, RequestError>)
    requires counter.Valid()
    modifies counter
    ensures counter.Valid()
    ensures r == InitialRequests(old(counter.value), keyPairs, m)
    ensures counter.value == Advanced(old(counter.value), if r.Success? then 3 else 2)
  {
    ghost var v := counter.value;
    var subject := ToSubject(m);
    var sigCrmf := NewCertReqMsg(counter, keyPairs.signature, SIG, subject, m.uri, m.email, []);
    var encCrmf := NewCertReqMsg(counter, keyPairs.signature, ENC, subject, m.uri, m.email, []);
    var tlsCrmf := NewCertReqMsg(counter, keyPairs.signature, TLS, subject, m.uri, m.email, []);
    assert Advanced(v, 2) == Int32Inc(Int32Inc(v));
    assert Advanced(v, 3) == Int32Inc(Int32Inc(Int32Inc(v)));
    if tlsCrmf.Failure? {
      return Failure(tlsCrmf.error);
    }
    r := Success(BuiltCertReqMessages([sigCrmf.value, encCrmf.value, tlsCrmf.value]));
  }

  /** generateCSR: the collection wrapped by the non-renewal ContentInfo path. */
  method GenerateCsr(counter: RequestIdCounter, keyPairs: Triple<KeyPair>, m: CsrMetadata)
    returns (r: Result<ContentInfo, RequestError>)
    requires counter.Valid()
    modifies counter
    ensures counter.Valid()
    ensures var spec := InitialRequests(old(counter.value), keyPairs, m);
      && r == (if spec.Success? then Success(AsContentInfo(spec.value)) else Failure(spec.error))
      && counter.value == Advanced(old(counter.value), if spec.Success? then 3 else 2)
  {
    var messages := GenerateCertReqMessages(counter, keyPairs, m);
    if messages.Failure? {
      return Failure(messages.error);
    }
    r := Success(AsContentInfo(messages.value));
  }

  /** The command-line options of the subject, in their declaration order. */
  datatype SubjectOptions = SubjectOptions(
    gln: string,
    name: string,
    uri: Uri,
    email: string,
    city: Option<string>,
    street: Option<string>,
    state: Option<string>,
    postalCode: Option<string>,
    country: string,
    pki: string)

  /** The metadata record built from the options, argument by argument. */
  function MetadataOf(o: SubjectOptions): (m: CsrMetadata)
    ensures m.name == o.name && m.gln == o.gln && m.uri == o.uri && m.email == o.email
    ensures m.pki == o.pki && m.country == o.country
    ensures m.state == o.state && m.city == o.city && m.postalCode == o.postalCode && m.street == o.street
  {
    CsrMetadata(o.name, o.gln, o.uri, o.email, o.pki, o.country, o.state, o.city, o.postalCode, o.street)
  }

  /** The parsed objects of one key file, with the file's path. */
  datatype KeyFile = KeyFile(path: string, objects: seq<PemObject>)

  datatype CommandError = KeyLoadFailed(keyError: KeyLoadError) | RequestFailed(requestError: RequestError)

  /** Load a key of the given type with its password (or the shared one). */
  method LoadTyped(file: KeyFile, p: Passwords, t: KeyType, tk: KeyPairUtil.Toolkit)
    returns (r: Result<KeyPair, KeyLoadError>)
    ensures r == KeyPairUtil.LoadResult(file.objects, file.path, PassForType(p, t), tk)
  {
    r := KeyPairUtil.LoadKeyPair(file.objects, file.path, PassForType(p, t), tk);
  }

  /** call: the key pairs are loaded as (encryption, signature, transport),
      each with the password of its own type, then the request is built. The
      file written is the encoding of the result. */
  method Call(counter: RequestIdCounter, encFile: KeyFile, sigFile: KeyFile, tlsFile: KeyFile,
              p: Passwords, o: SubjectOptions, tk: KeyPairUtil.Toolkit)
    returns (r: Result<ContentInfo, CommandError>)
    requires counter.Valid()
    modifies counter
    ensures counter.Valid()
    ensures var enc := KeyPairUtil.LoadResult(encFile.objects, encFile.path, PassForType(p, ENC), tk);
            var sig := KeyPairUtil.LoadResult(sigFile.objects, sigFile.path, PassForType(p, SIG), tk);
            var tls := KeyPairUtil.LoadResult(tlsFile.objects, tlsFile.path, PassForType(p, TLS), tk);
      && (enc.Failure? ==> r == Failure(KeyLoadFailed(enc.error)) && counter.value == old(counter.value))
      && (enc.Success? && sig.Failure? ==>
            r == Failure(KeyLoadFailed(sig.error)) && counter.value == old(counter.value))
      && (enc.Success? && sig.Success? && tls.Failure? ==>
            r == Failure(KeyLoadFailed(tls.error)) && counter.value == old(counter.value))
      && (enc.Success? && sig.Success? && tls.Success? ==>
            var spec := InitialRequests(old(counter.value), Triple(enc.value, sig.value, tls.value), MetadataOf(o));
            && r == (if spec.Success? then Success(AsContentInfo(spec.value)) else Failure(RequestFailed(spec.error)))
            && counter.value == Advanced(old(counter.value), if spec.Success? then 3 else 2))
  {
    var enc := LoadTyped(encFile, p, ENC, tk);
    if enc.Failure? {
      return Failure(KeyLoadFailed(enc.error));
    }
    var sig := LoadTyped(sigFile, p, SIG, tk);
    if sig.Failure? {
      return Failure(KeyLoadFailed(sig.error));
    }
    var tls := LoadTyped(tlsFile, p, TLS, tk);
    if tls.Failure? {
      return Failure(KeyLoadFailed(tls.error));
    }
    var keyPairs := Triple(enc.value, sig.value, tls.value);
    var metadata := MetadataOf(o);
    var csr := GenerateCsr(counter, keyPairs, metadata);
    if csr.Failure? {
      return Failure(RequestFailed(csr.error));
    }
    r := Success(csr.value);
  }
}
