/** RenewalUtil.outerSignature: the CMS SignedData that wraps the requests of
    a renewal, signed with the key of the certificate being renewed. */
module RenewalUtil {
  import opened Wrappers
  import opened Pkix
  import opened Crmf
  import opened Cms

  /** The single signed attribute: the content type of the request collection.
      CSRUtil.OID_CERT_REQ_MSGS is not part of this model; its value is the
      parameter certReqMsgsOid throughout. */
  function ContentTypeAttributes(certReqMsgsOid: Oid): (attrs: seq<Attribute>)
    ensures |attrs| == 1 && attrs[0].attrType == OidContentType
    ensures ContentTypeOf(attrs) == Some(certReqMsgsOid)
  {
    [Attribute(OidContentType, [certReqMsgsOid])]
  }

  /** The SignedData outerSignature generates: one SHA256withECDSA signer
      with the given private key, named by the SHA-1 key identifier of
      chain[0]'s public key and carrying the content-type attribute; every
      certificate of the chain attached; the data encapsulated. */
  function SignedRequests(privateKey: PrivateKey, chain: seq<Certificate>, data: RequestBytes,
                          certReqMsgsOid: Oid): (sd: SignedData)
    requires |chain| > 0
    ensures VerifiableStandalone(sd)
    ensures sd.certificates == chain
    ensures sd.eContentType == certReqMsgsOid && sd.eContent == Some(data)
    ensures |sd.signerInfos| == 1 && sd.signerInfos[0].key == privateKey
    ensures sd.signerInfos[0].algorithm == Sha256WithEcdsa
    ensures sd.signerInfos[0].sid == SubjectKeyIdentifier(Sha1KeyIdentifier(chain[0].publicKey))
    ensures ContentTypeOf(sd.signerInfos[0].signedAttributes) == Some(certReqMsgsOid)
  {
    var signer := SignerInfoGenerator(SubjectKeyIdentifier(Sha1KeyIdentifier(chain[0].publicKey)),
                                      Sha256WithEcdsa, privateKey, ContentTypeAttributes(certReqMsgsOid));
    var sd := SignedData([signer], chain, certReqMsgsOid, Some(data));
    assert Identifies(sd.signerInfos[0].sid, sd.certificates[0]);
    sd
  }

  /** outerSignature(PrivateKey, X509Certificate[], byte[]): SHA256withECDSA
      with the given private key; the signer is named by the SHA-1 key
      identifier of chain[0]'s public key; every certificate of the chain is
      attached; the data is encapsulated. */
  method OuterSignatureOfData(privateKey: PrivateKey, chain: seq<Certificate>, data: RequestBytes,
                              certReqMsgsOid: Oid)
    returns (sd: SignedData)
    requires |chain| > 0
    ensures sd.signerInfos == [SignerInfoGenerator(SubjectKeyIdentifier(Sha1KeyIdentifier(chain[0].publicKey)),
                                                   Sha256WithEcdsa, privateKey, ContentTypeAttributes(certReqMsgsOid))]
    ensures sd.certificates == chain
    ensures sd.eContentType == certReqMsgsOid && sd.eContent == Some(data)
    ensures VerifiableStandalone(sd)
    ensures sd == SignedRequests(privateKey, chain, data, certReqMsgsOid)
  {
    var gen := new SignedDataGenerator();
    var signedAttributes := ContentTypeAttributes(certReqMsgsOid);
    var keyIdentifier := Sha1KeyIdentifier(chain[0].publicKey);
    gen.AddSignerInfoGenerator(
      SignerInfoGenerator(SubjectKeyIdentifier(keyIdentifier), Sha256WithEcdsa, privateKey, signedAttributes));
    gen.AddCertificates(chain);
    sd := gen.Generate(TypedContent(certReqMsgsOid, data), true);
    assert Identifies(sd.signerInfos[0].sid, sd.certificates[0]);
  }

  /** outerSignature(PrivateKey, X509Certificate[], CertificateReqMessages):
      the signed data is the collection's default encoding. */
  method OuterSignature(privateKey: PrivateKey, chain: seq<Certificate>, csr: CertReqMessages,
                        certReqMsgsOid: Oid)
    returns (sd: SignedData)
    requires |chain| > 0
    ensures sd.eContent == Some(Encoded(csr, false)) && sd.eContentType == certReqMsgsOid
    ensures sd.certificates == chain
    ensures sd.signerInfos == [SignerInfoGenerator(SubjectKeyIdentifier(Sha1KeyIdentifier(chain[0].publicKey)),
                                                   Sha256WithEcdsa, privateKey, ContentTypeAttributes(certReqMsgsOid))]
    ensures VerifiableStandalone(sd)
    ensures sd == SignedRequests(privateKey, chain, Encoded(csr, false), certReqMsgsOid)
  {
    sd := OuterSignatureOfData(privateKey, chain, Encoded(csr, false), certReqMsgsOid);
  }
}
