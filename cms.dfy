/** The part of CMS SignedData (section 5 of RFC 5652) the outer signature of
    a renewal request is assembled from: a generator object that collects
    signer-info generators and certificates, and the record it generates.
    Digests and signature values are not computed. */
module Cms {
  import opened Wrappers
  import opened Pkix
  import opened Crmf

  /** SignerIdentifier (section 5.3 of RFC 5652). */
  datatype SignerIdentifier =
    | IssuerAndSerialNumber(issuer: Name, serial: nat)
    | SubjectKeyIdentifier(id: KeyIdentifier)

  /** A CMS attribute whose values are object identifiers. */
  datatype Attribute = Attribute(attrType: Oid, values: seq<Oid>)

  /** What a signer-info generator was built from: who signs, with which
      algorithm and key, and the signed-attribute table it was given. */
  datatype SignerInfoGenerator = SignerInfoGenerator(
    sid: SignerIdentifier,
    algorithm: SignatureAlgorithm,
    key: PrivateKey,
    signedAttributes: seq<Attribute>)

  /** CMSProcessableByteArray: content bytes with their content type. */
  datatype TypedContent = TypedContent(contentType: Oid, data: RequestBytes)

  /** The generated SignedData: its signer infos, attached certificates and
      encapsulated content (eContent is absent for a detached signature). */
  datatype SignedData = SignedData(
    signerInfos: seq<SignerInfoGenerator>,
    certificates: seq<Certificate>,
    eContentType: Oid,
    eContent: Option<RequestBytes>)

  /** CMSSignedDataGenerator. */
  class SignedDataGenerator {
    var signerInfoGenerators: seq<SignerInfoGenerator>
    var certificates: seq<Certificate>

    constructor()
      ensures signerInfoGenerators == [] && certificates == []
    {
      signerInfoGenerators := [];
      certificates := [];
    }

    method AddSignerInfoGenerator(g: SignerInfoGenerator)
      modifies this
      ensures signerInfoGenerators == old(signerInfoGenerators) + [g]
      ensures certificates == old(certificates)
    {
      signerInfoGenerators := signerInfoGenerators + [g];
    }

    method AddCertificate(c: Certificate)
      modifies this
      ensures certificates == old(certificates) + [c]
      ensures signerInfoGenerators == old(signerInfoGenerators)
    {
      certificates := certificates + [c];
    }

    /** addCertificates(store): every certificate of the store, in order. */
    method AddCertificates(cs: seq<Certificate>)
      modifies this
      ensures certificates == old(certificates) + cs
      ensures signerInfoGenerators == old(signerInfoGenerators)
    {
      certificates := certificates + cs;
    }

    /** generate(content, encapsulate). */
    function Generate(content: TypedContent, encapsulate: bool): (sd: SignedData)
      reads this
      ensures sd.signerInfos == signerInfoGenerators && sd.certificates == certificates
      ensures sd.eContentType == content.contentType
      ensures sd.eContent.Some? <==> encapsulate
      ensures encapsulate ==> sd.eContent.value == content.data
    {
      SignedData(signerInfoGenerators, certificates, content.contentType,
        if encapsulate then Some(content.data) else None)
    }
  }

  /** A certificate the signer identifier designates. */
  predicate Identifies(sid: SignerIdentifier, cert: Certificate) {
    match sid
    case IssuerAndSerialNumber(issuer, serial) => cert.issuer == issuer && cert.serial == serial
    case SubjectKeyIdentifier(id) => id == Sha1KeyIdentifier(cert.publicKey)
  }

  /** The content-type attribute of a signer, if it has exactly one value. */
  function ContentTypeOf(attrs: seq<Attribute>): Option<Oid> {
    if attrs == [] then None
    else if attrs[0].attrType == OidContentType && |attrs[0].values| == 1 then Some(attrs[0].values[0])
    else ContentTypeOf(attrs[1..])
  }

  /** A SignedData a recipient can verify with the certificates it carries:
      the content is encapsulated, every signer's content-type attribute
      names the encapsulated content type (section 11.1 of RFC 5652), and
      every signer identifier designates an attached certificate. */
  predicate VerifiableStandalone(sd: SignedData) {
    && sd.eContent.Some?
    && |sd.signerInfos| > 0
    && (forall i | 0 <= i < |sd.signerInfos| ::
          && ContentTypeOf(sd.signerInfos[i].signedAttributes) == Some(sd.eContentType)
          && exists j | 0 <= j < |sd.certificates| :: Identifies(sd.signerInfos[i].sid, sd.certificates[j]))
  }
}
