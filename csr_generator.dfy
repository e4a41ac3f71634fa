/** CSRGenerator: the stand-alone command that builds an initial request
    from three key files. It keeps its own request-id counter, builds the
    subject inline (the common name always gets the suffix), requests SIG,
    ENC and TLS from their own key pairs with SHA256withECDSA proof of
    possession, and merges them in the order TLS, ENC, SIG. */
module CsrGenerator {
  import opened Wrappers
  import opened Pkix
  import opened KeyTypes
  import opened Metadata
  import opened Crmf
  import opened BsiHeaders
  import opened PemObjects
  import opened CsrUtil
  import BaseCommand

  // ---------------------------------------------------------------------
  // Subject
  // ---------------------------------------------------------------------

  /** The "K=V" pairs of the directory name, in emission order: the common
      name is the name followed by the suffix, with no check whether the
      suffix is already there. */
  function GeneratorAttributes(o: CsrMetadata): seq<Ava> {
    [ Ava(OidCommonName, o.name + CnSuffix),
      Ava(OidOrganization, o.pki),
      Ava(OidOrganizationalUnit, o.gln),
      Ava(OidCountry, o.country) ]
    + OptionalAva(OidLocality, o.city)
    + OptionalAva(OidStreet, o.street)
    + OptionalAva(OidState, o.state)
    + OptionalAva(OidPostalCode, o.postalCode)
  }

  /** The subject parsed from the joined directory name. */
  function GeneratorSubject(o: CsrMetadata): (n: Name)
    ensures |n| == |GeneratorAttributes(o)|
  {
    ToName(GeneratorAttributes(o))
  }

  /** The generator's subject is the profile subject of the name with the
      suffix appended, so it has the profile's attribute order: CN, O, OU, C
      always, then the optional attributes present, in rank order. */
  lemma GeneratorSubjectIsProfileSubject(o: CsrMetadata)
    ensures GeneratorAttributes(o) == SubjectAttributes(o.(name := o.name + CnSuffix))
    ensures var avas := GeneratorAttributes(o);
      && |avas| == 4 + Count(o.city) + Count(o.street) + Count(o.state) + Count(o.postalCode)
      && avas[0] == Ava(OidCommonName, o.name + CnSuffix)
      && avas[1] == Ava(OidOrganization, o.pki)
      && avas[2] == Ava(OidOrganizationalUnit, o.gln)
      && avas[3] == Ava(OidCountry, o.country)
      && RanksIncrease(avas)
  {
    var suffixed := o.(name := o.name + CnSuffix);
    assert OccursAt(o.name + CnSuffix, CnSuffix, |o.name|);
    assert NormalizedName(suffixed.name) == o.name + CnSuffix;
    SubjectShape(suffixed);
  }

  /** For a name without the suffix the generator and CSRMetadata.toSubject
      build the same subject; for a name that already carries it, the
      generator appends it a second time and the two disagree. */
  lemma GeneratorAndMetadataSubjects(o: CsrMetadata)
    ensures !Contains(o.name, CnSuffix) ==> GeneratorSubject(o) == ToSubject(o)
    ensures Contains(o.name, CnSuffix) ==>
      GeneratorAttributes(o)[0].value == o.name + CnSuffix != SubjectAttributes(o)[0].value
  {
    GeneratorSubjectIsProfileSubject(o);
    if Contains(o.name, CnSuffix) {
      assert |o.name + CnSuffix| > |o.name|;
    }
  }

  // ---------------------------------------------------------------------
  // Requests
  // ---------------------------------------------------------------------

  /** certReqMsg of the generator: no registration info, proof of
      possession by SHA256withECDSA, the id taken from the generator's own
      counter once the SAN list is built. */
  method GeneratorCertReqMsg(counter: RequestIdCounter, kp: KeyPair, t: KeyType, subject: Name, uri: Uri,
                             email: string)
    returns (r: Result<CertReqMsg, RequestError>)
    requires counter.Valid()
    modifies counter
    ensures counter.Valid()
    ensures r == Request(old(counter.value), kp, t, subject, uri, email, [], Sha256WithEcdsa)
    ensures counter.value == if r.Success? then Int32Inc(old(counter.value)) else old(counter.value)
  {
    var san := SubjectAlternativeNames(t, uri, email);
    if san.Failure? {
      return Failure(san.error);
    }
    var id := counter.GetAndIncrement();
    var extensions := RequestExtensions(kp.pub, t, san.value);
    r := Success(CertReqMsg(CertRequest(id, subject, kp.pub, extensions), SignaturePop(Sha256WithEcdsa, kp.priv), []));
  }

  /** merge: one CertReqMsg per argument, in argument order. */
  function Merge(messages: seq<CertReqMsg>): (r: CertReqMessages)
    ensures r.CertReqMessages? && |r.requests| == |messages|
    ensures forall i | 0 <= i < |messages| :: r.requests[i] == messages[i]
  {
    CertReqMessages(seq(|messages|, i requires 0 <= i < |messages| => messages[i]))
  }

  /** wrap: always an initial request under the BSI header, the same
      envelope as CSRUtil's one-argument asPKIMessage. */
  function Wrap(messages: CertReqMessages): (m: PkiMessage<CertReqMessages>)
    ensures m == AsPkiMessage(messages)
    ensures Unwrap(m) == (messages, false)
  {
    PkiMessage(Bsi(NewBsiPkiHeader()), PkiBody(TypeInitReq, messages))
  }

  /** The message call writes once the three key pairs are loaded, with
      request ids from `id` on: SIG gets id, ENC the next, TLS the one after,
      and the collection lists them as TLS, ENC, SIG. */
  function GeneratorMessage(id: int, o: CsrMetadata, sigKp: KeyPair, encKp: KeyPair, tlsKp: KeyPair)
    : (r: Result<PkiMessage<CertReqMessages>, RequestError>)
    requires IsInt32(id)
    ensures r.Failure? <==> o.uri.host.None?
    ensures r.Success? ==>
      && r.value == Wrap(r.value.body.content)
      && r.value.body.content.CertReqMessages?
      && |r.value.body.content.requests| == 3
  {
    var subject := GeneratorSubject(o);
    var sig := Request(id, sigKp, SIG, subject, o.uri, o.email, [], Sha256WithEcdsa);
    var enc := Request(Int32Inc(id), encKp, ENC, subject, o.uri, o.email, [], Sha256WithEcdsa);
    var tls := Request(Int32Inc(Int32Inc(id)), tlsKp, TLS, subject, o.uri, o.email, [], Sha256WithEcdsa);
    if tls.Failure? then Failure(tls.error)
    else Success(Wrap(Merge([tls.value, enc.value, sig.value])))
  }

  /** With a starting id N that leaves room for three, the collection's ids
      read N + 2, N + 1, N. */
  lemma MergedIdsDescend(id: int, o: CsrMetadata, sigKp: KeyPair, encKp: KeyPair, tlsKp: KeyPair)
    requires 0 <= id <= IntMax - 2
    requires o.uri.host.Some?
    ensures var requests := GeneratorMessage(id, o, sigKp, encKp, tlsKp).value.body.content.requests;
      && requests[0].certReq.certReqId == id + 2
      && requests[1].certReq.certReqId == id + 1
      && requests[2].certReq.certReqId == id
  {
    assert Int32Inc(id) == id + 1 && Int32Inc(Int32Inc(id)) == id + 2;
  }

  /** The collection lists the TLS, ENC and SIG requests in that order,
      each built from its own key pair and proved by SHA256withECDSA with its
      own private key, all for the generator's subject. */
  lemma MergedRequestKeys(id: int, o: CsrMetadata, sigKp: KeyPair, encKp: KeyPair, tlsKp: KeyPair)
    requires IsInt32(id)
    requires o.uri.host.Some?
    ensures var requests := GeneratorMessage(id, o, sigKp, encKp, tlsKp).value.body.content.requests;
      && requests[0].certReq.publicKey == tlsKp.pub && requests[0].pop == SignaturePop(Sha256WithEcdsa, tlsKp.priv)
      && requests[1].certReq.publicKey == encKp.pub && requests[1].pop == SignaturePop(Sha256WithEcdsa, encKp.priv)
      && requests[2].certReq.publicKey == sigKp.pub && requests[2].pop == SignaturePop(Sha256WithEcdsa, sigKp.priv)
      && requests[0].certReq.subject == GeneratorSubject(o)
      && requests[1].certReq.subject == GeneratorSubject(o)
      && requests[2].certReq.subject == GeneratorSubject(o)
  {
  }

  /** The three requests ask for the TLS, ENC and SIG key usage in that
      order. */
  lemma MergedRequestUsages(id: int, o: CsrMetadata, sigKp: KeyPair, encKp: KeyPair, tlsKp: KeyPair)
    requires IsInt32(id)
    requires o.uri.host.Some?
    ensures var requests := GeneratorMessage(id, o, sigKp, encKp, tlsKp).value.body.content.requests;
      && requests[0].certReq.extensions[1].value == KeyUsageValue(TLS.KeyUsage())
      && requests[1].certReq.extensions[1].value == KeyUsageValue(ENC.KeyUsage())
      && requests[2].certReq.extensions[1].value == KeyUsageValue(SIG.KeyUsage())
  {
  }

  // ---------------------------------------------------------------------
  // Key loading and the command
  // ---------------------------------------------------------------------

  /** The outcome of the generator's loadKeyPair: the first PEM key pair,
      every other object skipped. */
  function LoadResult(objects: seq<PemObject>): (r: Result<KeyPair, KeyLoadError>)
    ensures r.Failure? <==> forall i | 0 <= i < |objects| :: !objects[i].PemKeyPair?
    ensures r.Failure? ==> r.error == IllegalArgument(BaseCommand.NotPemEncodedEcKey)
    ensures r.Success? ==> exists i | 0 <= i < |objects| ::
      && objects[i] == PemKeyPair(r.value)
      && forall j | 0 <= j < i :: !objects[j].PemKeyPair?
  {
    match FirstAccepted(GeneratorLoader, objects)
    case None => Failure(IllegalArgument(BaseCommand.NotPemEncodedEcKey))
    case Some(i) => Success(objects[i].keyPair)
  }

  /** loadKeyPair: read objects until a PEM key pair or the end. */
  method LoadKeyPair(objects: seq<PemObject>) returns (r: Result<KeyPair, KeyLoadError>)
    ensures r == LoadResult(objects)
  {
    var k := 0;
    while k < |objects| && !objects[k].PemKeyPair?
      invariant 0 <= k <= |objects|
      invariant forall j | 0 <= j < k :: !Accepts(GeneratorLoader, objects[j])
    {
      k := k + 1;
    }
    if k < |objects| {
      r := Success(objects[k].keyPair);
    } else {
      r := Failure(IllegalArgument(BaseCommand.NotPemEncodedEcKey));
    }
  }

  datatype GeneratorError = KeyLoadFailed(keyError: KeyLoadError) | RequestFailed(requestError: RequestError)

  /** call: each key pair is loaded just before its request is built, in the
      order SIG, ENC, TLS, so a later failure leaves the earlier ids used. */
  method Call(counter: RequestIdCounter, o: CsrMetadata, sigObjects: seq<PemObject>, encObjects: seq<PemObject>,
              tlsObjects: seq<PemObject>)
    returns (r: Result<PkiMessage<CertReqMessages>, GeneratorError>)
    requires counter.Valid()
    modifies counter
    ensures counter.Valid()
    ensures var sig, enc, tls := LoadResult(sigObjects), LoadResult(encObjects), LoadResult(tlsObjects);
      && (sig.Failure? ==> r == Failure(KeyLoadFailed(sig.error)) && counter.value == old(counter.value))
      && (sig.Success? && enc.Failure? ==>
            r == Failure(KeyLoadFailed(enc.error)) && counter.value == Int32Inc(old(counter.value)))
      && (sig.Success? && enc.Success? && tls.Failure? ==>
            r == Failure(KeyLoadFailed(tls.error)) && counter.value == Int32Inc(Int32Inc(old(counter.value))))
      && (sig.Success? && enc.Success? && tls.Success? ==>
            var spec := GeneratorMessage(old(counter.value), o, sig.value, enc.value, tls.value);
            && r == (if spec.Success? then Success(spec.value) else Failure(RequestFailed(spec.error)))
            && counter.value == Advanced(old(counter.value), if spec.Success? then 3 else 2))
  {
    var subject := GeneratorSubject(o);
    var sigKp := LoadKeyPair(sigObjects);
    if sigKp.Failure? {
      return Failure(KeyLoadFailed(sigKp.error));
    }
    var sigCrmf := GeneratorCertReqMsg(counter, sigKp.value, SIG, subject, o.uri, o.email);
    var encKp := LoadKeyPair(encObjects);
    if encKp.Failure? {
      return Failure(KeyLoadFailed(encKp.error));
    }
    var encCrmf := GeneratorCertReqMsg(counter, encKp.value, ENC, subject, o.uri, o.email);
    var tlsKp := LoadKeyPair(tlsObjects);
    if tlsKp.Failure? {
      return Failure(KeyLoadFailed(tlsKp.error));
    }
    var tlsCrmf := GeneratorCertReqMsg(counter, tlsKp.value, TLS, subject, o.uri, o.email);
    if tlsCrmf.Failure? {
      return Failure(RequestFailed(tlsCrmf.error));
    }
    var crmf := Merge([tlsCrmf.value, encCrmf.value, sigCrmf.value]);
    r := Success(Wrap(crmf));
  }
}
