/** CSRUtil: the request builder shared by the initial and the renewal
    commands. It holds the process-wide request-id counter, builds one
    CertReqMsg per key type, merges requests, selects the PKI message
    envelope and assembles the outer CMS signature of a request collection. */
module CsrUtil {
  import opened Wrappers
  import opened Pkix
  import opened KeyTypes
  import opened Metadata
  import opened BsiHeaders
  import opened Crmf
  import opened Cms

  // Java int range
  const IntMax: int := 0x7fff_ffff
  const IntMin: int := -0x8000_0000

  predicate IsInt32(x: int) {
    IntMin <= x <= IntMax
  }

  /** Java's int increment: wraps from the largest value to the smallest. */
  function Int32Inc(x: int): (y: int)
    requires IsInt32(x)
    ensures IsInt32(y)
    ensures x < IntMax ==> y == x + 1
    ensures x == IntMax ==> y == IntMin
  {
    if x == IntMax then IntMin else x + 1
  }

  /** The CERT_REQ_ID AtomicInteger. Its seed is drawn by
      nextInt(Integer.MAX_VALUE - 3), so it lies in [0, 2^31 - 5]; the
      random draw itself is the constructor's argument. */
  class RequestIdCounter {
    var value: int

    ghost predicate Valid()
      reads this
    {
      IsInt32(value)
    }

    constructor(seed: int)
      requires 0 <= seed <= IntMax - 4
      ensures Valid() && value == seed
    {
      value := seed;
    }

    /** getAndIncrement. */
    method GetAndIncrement() returns (id: int)
      requires Valid()
      modifies this
      ensures Valid()
      ensures id == old(value) && value == Int32Inc(old(value))
    {
      id := value;
      value := Int32Inc(value);
    }
  }

  /** The ids handed out by n successive allocations from counter value v. */
  function Allocations(v: int, n: nat): (ids: seq<int>)
    requires IsInt32(v)
    decreases n
    ensures |ids| == n
    ensures forall i | 0 <= i < n :: IsInt32(ids[i])
  {
    if n == 0 then [] else [v] + Allocations(Int32Inc(v), n - 1)
  }

  /** The counter value after n allocations from counter value v. */
  function Advanced(v: int, n: nat): (w: int)
    requires IsInt32(v)
    decreases n
    ensures IsInt32(w)
    ensures v + n <= IntMax ==> w == v + n
  {
    if n == 0 then v else Advanced(Int32Inc(v), n - 1)
  }

  /** Without reaching the top of the int range, allocations are consecutive. */
  lemma {:induction false} AllocationsConsecutive(v: int, n: nat)
    requires IsInt32(v) && v + n - 1 <= IntMax
    ensures forall i | 0 <= i < n :: Allocations(v, n)[i] == v + i
    decreases n
  {
    if n > 0 {
      if n > 1 {
        AllocationsConsecutive(Int32Inc(v), n - 1);
      }
      assert Allocations(v, n) == [v] + Allocations(Int32Inc(v), n - 1);
    }
  }

  /** From any seed the counter can take, five allocations (more than the
      three requests of a command) give non-negative consecutive ids. */
  lemma SeedLeavesRoom(seed: int)
    requires 0 <= seed <= IntMax - 4
    ensures forall i | 0 <= i < 5 :: Allocations(seed, 5)[i] == seed + i >= 0
  {
    AllocationsConsecutive(seed, 5);
  }

  /** The bound is tight: the sixth allocation from the largest seed is negative. */
  lemma SixthAllocationCanWrap()
    ensures Allocations(IntMax - 4, 6)[5] == IntMin
  {
    AllocationsConsecutive(IntMax - 4, 5);
    var ids := Allocations(IntMax - 4, 6);
    assert ids[1..] == Allocations(IntMax - 3, 5);
    assert ids[1..][1..] == Allocations(IntMax - 2, 4);
    assert ids[1..][1..][1..] == Allocations(IntMax - 1, 3);
    assert ids[1..][1..][1..][1..] == Allocations(IntMax, 2);
    assert ids[1..][1..][1..][1..][1..] == Allocations(IntMin, 1);
  }

  /** Why building a request fails: the URI of a TLS request has no host,
      so its dNSName entry is built from null. */
  datatype RequestError = NullDnsName

  /** subjectAlternativeNames: e-mail, DNS name of the URI's host and URI for
      TLS; e-mail and URI for the other types. */
  function SubjectAlternativeNames(t: KeyType, uri: Uri, email: string)
    : (r: Result<seq<GeneralName>, RequestError>)
    ensures r.Failure? <==> t == TLS && uri.host.None?
    ensures r.Success? && t == TLS ==>
      r.value == [GeneralName(TagRfc822Name, email), GeneralName(TagDnsName, uri.host.value), GeneralName(TagUri, uri.text)]
    ensures t != TLS ==> r == Success([GeneralName(TagRfc822Name, email), GeneralName(TagUri, uri.text)])
    ensures r.Success? ==>
      && FirstWithTag(r.value, TagRfc822Name) == Some(email)
      && FirstWithTag(r.value, TagUri) == Some(uri.text)
      && FirstWithTag(r.value, TagDnsName) == (if t == TLS then uri.host else None)
  {
    var emailGn := GeneralName(TagRfc822Name, email);
    var uriGn := GeneralName(TagUri, uri.text);
    if t == TLS then
      if uri.host.None? then Failure(NullDnsName)
      else
        var names := [emailGn, GeneralName(TagDnsName, uri.host.value), uriGn];
        assert names[1..] == [GeneralName(TagDnsName, uri.host.value), uriGn];
        assert names[1..][1..] == [uriGn];
        assert FirstWithTag(names[1..][1..], TagUri) == Some(uri.text);
        Success(names)
    else
      var names := [emailGn, uriGn];
      assert names[1..] == [uriGn];
      assert names[1..][1..] == [];
      Success(names)
  }

  /** The extensions of a request, in the order the builder adds them. */
  function RequestExtensions(pub: PublicKey, t: KeyType, san: seq<GeneralName>): (exts: seq<Extension>)
    ensures |exts| == (if t == TLS then 4 else 3)
    ensures exts[0] == Extension(OidSubjectKeyIdentifier, false, SubjectKeyIdentifierValue(Sha1KeyIdentifier(pub)))
    ensures exts[1] == Extension(OidKeyUsage, true, KeyUsageValue(t.KeyUsage()))
    ensures exts[2] == Extension(OidSubjectAltName, true, SubjectAltNameValue(san))
    ensures t == TLS ==> exts[3] == Extension(OidExtendedKeyUsage, true, ExtendedKeyUsageValue([OidServerAuth, OidClientAuth]))
    ensures forall i | 0 <= i < |exts| :: exts[i].critical <==> i > 0
  {
    var base := [
      Extension(OidSubjectKeyIdentifier, false, SubjectKeyIdentifierValue(Sha1KeyIdentifier(pub))),
      Extension(OidKeyUsage, true, KeyUsageValue(t.KeyUsage())),
      Extension(OidSubjectAltName, true, SubjectAltNameValue(san))];
    match t.ExtendedKeyUsage()
    case Some(eku) => base + [Extension(OidExtendedKeyUsage, true, ExtendedKeyUsageValue(eku))]
    case None => base
  }

  /** The request built for a key pair and a type from request id `id`,
      signed for proof of possession with algorithm `popAlg`. */
  function Request(id: int, kp: KeyPair, t: KeyType, subject: Name, uri: Uri, email: string,
                   regInfo: seq<Ava>, popAlg: SignatureAlgorithm)
    : (r: Result<CertReqMsg, RequestError>)
    ensures r.Failure? <==> SubjectAlternativeNames(t, uri, email).Failure?
    ensures r.Success? ==>
      && r.value.certReq.certReqId == id
      && r.value.certReq.subject == subject
      && r.value.certReq.publicKey == kp.pub
      && r.value.certReq.extensions == RequestExtensions(kp.pub, t, SubjectAlternativeNames(t, uri, email).value)
      && r.value.pop == SignaturePop(popAlg, kp.priv)
      && r.value.regInfo == regInfo
  {
    match SubjectAlternativeNames(t, uri, email)
    case Failure(e) => Failure(e)
    case Success(san) =>
      Success(CertReqMsg(CertRequest(id, subject, kp.pub, RequestExtensions(kp.pub, t, san)),
                         SignaturePop(popAlg, kp.priv), regInfo))
  }

  /** certReqMsg: the SAN list is built first, so a failing TLS request
      leaves the counter alone; otherwise the request takes the counter's
      current value as its id and advances it by one. */
  method NewCertReqMsg(counter: RequestIdCounter, kp: KeyPair, t: KeyType, subject: Name, uri: Uri,
                    email: string, regInfo: seq<Ava>)
    returns (r: Result<CertReqMsg, RequestError>)
    requires counter.Valid()
    modifies counter
    ensures counter.Valid()
    ensures r == Request(old(counter.value), kp, t, subject, uri, email, regInfo, Sha384WithEcdsa)
    ensures counter.value == if r.Success? then Int32Inc(old(counter.value)) else old(counter.value)
  {
    var san := SubjectAlternativeNames(t, uri, email);
    if san.Failure? {
      return Failure(san.error);
    }
    var id := counter.GetAndIncrement();
    var extensions := RequestExtensions(kp.pub, t, san.value);
    r := Success(CertReqMsg(CertRequest(id, subject, kp.pub, extensions),
                            SignaturePop(Sha384WithEcdsa, kp.priv), regInfo));
  }

  /** A certificate issued as the request asks: its subject, key, key usage,
      extended key usage and subject alternative names are the requested ones. */
  predicate IssuedAsRequested(cert: Certificate, req: CertRequest) {
    && cert.subject == req.subject
    && cert.publicKey == req.publicKey
    && (forall i | 0 <= i < |req.extensions| && req.extensions[i].value.KeyUsageValue? ::
          cert.keyUsage == Some(req.extensions[i].value.bits))
    && (forall i | 0 <= i < |req.extensions| && req.extensions[i].value.SubjectAltNameValue? ::
          cert.subjectAltNames == Some(req.extensions[i].value.names))
    && (forall i | 0 <= i < |req.extensions| && req.extensions[i].value.ExtendedKeyUsageValue? ::
          cert.extendedKeyUsage == EkuPresent(req.extensions[i].value.purposes))
    && ((forall i | 0 <= i < |req.extensions| :: !req.extensions[i].value.ExtendedKeyUsageValue?) ==>
          cert.extendedKeyUsage == EkuAbsent)
  }

  /** A certificate issued as a request of type t asks is classified back as
      t, and the URI and e-mail of the request are what metadata extraction
      reads from its subject alternative names. */
  lemma IssuedCertificateRoundTrip(id: int, kp: KeyPair, t: KeyType, subject: Name, uri: Uri,
                                   email: string, regInfo: seq<Ava>, alg: SignatureAlgorithm,
                                   cert: Certificate)
    requires Request(id, kp, t, subject, uri, email, regInfo, alg).Success?
    requires IssuedAsRequested(cert, Request(id, kp, t, subject, uri, email, regInfo, alg).value.certReq)
    ensures KeyTypes.FromCertificate(cert) == Success(Some(t))
    ensures ExtractSan(cert.subjectAltNames, TagUri) == Success(uri.text)
    ensures ExtractSan(cert.subjectAltNames, TagRfc822Name) == Success(email)
  {
    var san := SubjectAlternativeNames(t, uri, email).value;
    var exts := RequestExtensions(kp.pub, t, san);
    assert exts[1].value.KeyUsageValue? && exts[2].value.SubjectAltNameValue?;
    if t != TLS {
      assert forall i | 0 <= i < |exts| :: !exts[i].value.ExtendedKeyUsageValue? by {
        forall i | 0 <= i < |exts| ensures !exts[i].value.ExtendedKeyUsageValue? {
          assert i == 0 || i == 1 || i == 2;
        }
      }
    } else {
      assert exts[3].value.ExtendedKeyUsageValue?;
    }
    ClassifyLeftInverse(cert, t);
  }

  /** merge: the builder receives the requests one by one, in order. */
  method Merge(messages: seq<CertReqMsg>) returns (r: CertReqMessages)
    ensures r.CertReqMessages? && r.requests == messages
  {
    var requests: seq<CertReqMsg> := [];
    for i := 0 to |messages|
      invariant requests == messages[..i]
    {
      requests := requests + [messages[i]];
    }
    r := CertReqMessages(requests);
  }

  /** asPKIMessage(ASN1Encodable, boolean): the renewal header and a cert-req
      body for a renewal, the BSI header and an init-req body otherwise. */
  function AsPkiMessageOfContent<C>(content: C, renewal: bool): (m: PkiMessage<C>)
    ensures m.header.BsiRenewal? <==> renewal
    ensures !renewal ==> m.header == Bsi(NewBsiPkiHeader())
    ensures m.body.bodyType == TypeCertReq <==> renewal
    ensures m.body.bodyType == TypeInitReq <==> !renewal
    ensures m.body.content == content
  {
    if renewal then PkiMessage(BsiRenewal, PkiBody(TypeCertReq, content))
    else PkiMessage(Bsi(NewBsiPkiHeader()), PkiBody(TypeInitReq, content))
  }

  /** asPKIMessage(CertificateReqMessages, boolean): the collection is the
      content, under the envelope the renewal flag selects. */
  function AsPkiMessageOfRequests(messages: CertReqMessages, renewal: bool): (m: PkiMessage<CertReqMessages>)
    ensures m.header.BsiRenewal? <==> renewal
    ensures !renewal ==> m.header == Bsi(NewBsiPkiHeader())
    ensures m.body.bodyType == (if renewal then TypeCertReq else TypeInitReq)
    ensures m.body.content == messages
    ensures Unwrap(m) == (messages, renewal)
  {
    AsPkiMessageOfContent(messages, renewal)
  }

  /** asPKIMessage(CertificateReqMessages): an initial request. */
  function AsPkiMessage(messages: CertReqMessages): (m: PkiMessage<CertReqMessages>)
    ensures m.header == Bsi(NewBsiPkiHeader()) && m.body == PkiBody(TypeInitReq, messages)
  {
    AsPkiMessageOfRequests(messages, false)
  }

  /** What a receiver reads back from an envelope: the content, and whether
      it is a renewal. */
  function Unwrap<C>(m: PkiMessage<C>): (C, bool) {
    (m.body.content, m.body.bodyType == TypeCertReq)
  }

  /** The envelope loses nothing: content and renewal flag are read back. */
  lemma UnwrapAsPkiMessage<C>(content: C, renewal: bool)
    ensures Unwrap(AsPkiMessageOfContent(content, renewal)) == (content, renewal)
  {
  }

  /** A PKI message's header and body type always agree. */
  lemma EnvelopeConsistent<C>(content: C, renewal: bool)
    ensures var m := AsPkiMessageOfContent(content, renewal);
      m.header.BsiRenewal? <==> m.body.bodyType == TypeCertReq
  {
  }

  /** The ContentInfo wrapping of CSRUtil.asContentInfo, which is not part of
      this model: a request collection, or the content of a SignedData with a
      renewal flag. */
  datatype ContentInfo =
    | AsContentInfo(messages: CertReqMessages)
    | AsContentInfoOf(signed: SignedData, renewal: bool)

  /** The single signed attribute: content type bsiCertReqMsgs. */
  function BsiContentTypeAttributes(): seq<Attribute> {
    [Attribute(OidContentType, [OidBsiCertReqMsgs])]
  }

  /** outerSignature(KeyPair, X509Certificate[], byte[]): signed with
      SHA256withECDSA by the key pair's private key, the signer identified by
      chain[0]'s issuer and serial number, only chain[0] attached, the data
      encapsulated under content type bsiCertReqMsgs. */
  method OuterSignatureOfData(kp: KeyPair, chain: seq<Certificate>, data: RequestBytes)
    returns (sd: SignedData)
    requires |chain| > 0
    ensures sd.signerInfos == [SignerInfoGenerator(IssuerAndSerialNumber(chain[0].issuer, chain[0].serial),
                                                   Sha256WithEcdsa, kp.priv, BsiContentTypeAttributes())]
    ensures sd.certificates == [chain[0]]
    ensures sd.eContentType == OidBsiCertReqMsgs && sd.eContent == Some(data)
    ensures VerifiableStandalone(sd)
  {
    var gen := new SignedDataGenerator();
    var signedAttributes := BsiContentTypeAttributes();
    var signer := SignerInfoGenerator(IssuerAndSerialNumber(chain[0].issuer, chain[0].serial),
                                      Sha256WithEcdsa, kp.priv, signedAttributes);
    gen.AddSignerInfoGenerator(signer);
    gen.AddCertificate(chain[0]);
    sd := gen.Generate(TypedContent(OidBsiCertReqMsgs, data), true);
    assert Identifies(sd.signerInfos[0].sid, sd.certificates[0]);
  }

  /** outerSignature(KeyPair, X509Certificate[], CertificateReqMessages): the
      signed data is the DER encoding of the collection. */
  method OuterSignature(kp: KeyPair, chain: seq<Certificate>, csr: CertReqMessages)
    returns (sd: SignedData)
    requires |chain| > 0
    ensures sd.eContent == Some(Encoded(csr, true))
    ensures sd.certificates == [chain[0]]
    ensures sd.eContentType == OidBsiCertReqMsgs
    ensures |sd.signerInfos| == 1 && sd.signerInfos[0].sid == IssuerAndSerialNumber(chain[0].issuer, chain[0].serial)
    ensures VerifiableStandalone(sd)
  {
    sd := OuterSignatureOfData(kp, chain, Encoded(csr, true));
  }
}
