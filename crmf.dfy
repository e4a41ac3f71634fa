/** The certificate request structures of RFC 4211 (CRMF) and the PKI
    message envelope of RFC 4210 (CMP), as the request engine fills them in.
    Signatures and encodings are symbolic terms. */
module Crmf {
  import opened Wrappers
  import opened Pkix
  import opened BsiHeaders

  datatype SignatureAlgorithm = Sha256WithEcdsa | Sha384WithEcdsa

  /** The values of the four extensions a request carries (section 4.2.1 of RFC 5280). */
  datatype ExtensionValue =
    | SubjectKeyIdentifierValue(id: KeyIdentifier)
    | KeyUsageValue(bits: set<nat>)
    | SubjectAltNameValue(names: seq<GeneralName>)
    | ExtendedKeyUsageValue(purposes: seq<Oid>)

  datatype Extension = Extension(extnId: Oid, critical: bool, value: ExtensionValue)

  /** Proof of possession by signature (section 4.1 of RFC 4211): the
      request signed with the private key of the requested certificate. */
  datatype ProofOfPossession = SignaturePop(algorithm: SignatureAlgorithm, signer: PrivateKey)

  /** CertRequest's template fields that the engine sets (section 5 of RFC 4211). */
  datatype CertRequest = CertRequest(
    certReqId: int,
    subject: Name,
    publicKey: PublicKey,
    extensions: seq<Extension>)

  /** CertReqMsg: a request, its proof of possession and its registration info. */
  datatype CertReqMsg = CertReqMsg(certReq: CertRequest, pop: ProofOfPossession, regInfo: seq<Ava>)

  /** CertReqMessages, a sequence of requests (section 3 of RFC 4211).
      BuiltCertReqMessages stands for the result of
      CSRUtil.buildCertificateRequestMessages applied to its arguments in
      order; that helper is not part of this model, so the term is kept
      symbolic. */
  datatype CertReqMessages =
    | CertReqMessages(requests: seq<CertReqMsg>)
    | BuiltCertReqMessages(arguments: seq<CertReqMsg>)

  /** The encoding of a request collection: DER, or the default encoding of
      the ASN.1 object. */
  datatype RequestBytes = Encoded(messages: CertReqMessages, der: bool)

  /** The header of a PKI message: the BSI header, or the renewal header
      BSIRenewalHeader, which is not part of this model. */
  datatype Header = Bsi(header: PkiHeader) | BsiRenewal

  // PKIBody choice tags (section 5.1.2 of RFC 4210)
  const TypeInitReq: nat := 0
  const TypeCertReq: nat := 2

  datatype PkiBody<C> = PkiBody(bodyType: nat, content: C)

  datatype PkiMessage<C> = PkiMessage(header: Header, body: PkiBody<C>)
}
