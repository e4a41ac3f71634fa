/** The three key types of a smart-meter PKI certificate triple, their fixed
    key-usage policy, and the reverse classifier from a certificate's
    key-usage extensions back to a type. */
module KeyTypes {
  import opened Wrappers
  import opened Pkix

  // Key-usage bit positions (section 4.2.1.3 of RFC 5280)
  const DigitalSignature: nat := 0
  const KeyEncipherment: nat := 2
  const KeyAgreement: nat := 4

  datatype KeyType = SIG | ENC | TLS {

    /** File name suffix under which a certificate of this type is saved. */
    function Filename(): (name: string)
      ensures |name| == 8 && name[0] == '_' && name[4..] == ".pem"
    {
      match this
      case SIG => "_sig.pem"
      case ENC => "_enc.pem"
      case TLS => "_tls.pem"
    }

    /** The key-usage bits a request of this type asks for. */
    function KeyUsage(): (bits: set<nat>)
      ensures DigitalSignature in bits <==> this != ENC
      ensures (KeyEncipherment in bits && KeyAgreement in bits) <==> this == ENC
      ensures bits == if this == ENC then {KeyAgreement, KeyEncipherment} else {DigitalSignature}
    {
      match this
      case ENC => {KeyAgreement, KeyEncipherment}
      case SIG => {DigitalSignature}
      case TLS => {DigitalSignature}
    }

    /** The extended key usage a request of this type asks for, if any. */
    function ExtendedKeyUsage(): (eku: Option<seq<Oid>>)
      ensures eku.Some? <==> this == TLS
      ensures eku.Some? ==> eku.value == [OidServerAuth, OidClientAuth]
    {
      match this
      case TLS => Some([OidServerAuth, OidClientAuth])
      case ENC => None
      case SIG => None
    }
  }

  /** The classifier's only failure that escapes: a certificate without a
      key-usage extension makes getKeyUsage() return null, and indexing it
      throws a NullPointerException that the classifier does not catch. */
  datatype ClassifyError = NullKeyUsage

  /** KeyType.fromCertificate(X509Certificate): TLS, then SIG, then ENC, the
      first matching rule wins; an unparseable EKU extension is swallowed
      and yields no type. */
  function FromCertificate(cert: Certificate): (r: Result<Option<KeyType>, ClassifyError>)
    ensures r.Failure? <==> cert.keyUsage.None? && !cert.extendedKeyUsage.EkuUnparsable?
    ensures r == Success(Some(TLS)) <==>
      cert.extendedKeyUsage.EkuPresent? && cert.keyUsage.Some? && DigitalSignature in cert.keyUsage.value
    ensures r == Success(Some(SIG)) <==>
      cert.extendedKeyUsage.EkuAbsent? && cert.keyUsage.Some? && DigitalSignature in cert.keyUsage.value
    ensures r == Success(Some(ENC)) <==>
      && cert.extendedKeyUsage.EkuAbsent? && cert.keyUsage.Some?
      && DigitalSignature !in cert.keyUsage.value
      && KeyEncipherment in cert.keyUsage.value && KeyAgreement in cert.keyUsage.value
  {
    if cert.extendedKeyUsage.EkuUnparsable? then Success(None)
    else if cert.keyUsage.None? then Failure(NullKeyUsage)
    else
      var ku := cert.keyUsage.value;
      var hasEku := cert.extendedKeyUsage.EkuPresent?;
      if hasEku && DigitalSignature in ku then Success(Some(TLS))
      else if !hasEku && DigitalSignature in ku then Success(Some(SIG))
      else if !hasEku && KeyEncipherment in ku && KeyAgreement in ku then Success(Some(ENC))
      else Success(None)
  }

  /** KeyType.fromCertificate(byte[]): the parse of the bytes is done by the
      toolkit and given here as its outcome; a parse failure or an empty
      chain yields no type, otherwise only the first certificate counts. */
  function FromCertificateBytes(parsed: Result<seq<Certificate>, CertificateLoadError>)
    : (r: Result<Option<KeyType>, ClassifyError>)
    ensures parsed.Failure? ==> r == Success(None)
    ensures parsed.Success? && parsed.value == [] ==> r == Success(None)
    ensures parsed.Success? && parsed.value != [] ==> r == FromCertificate(parsed.value[0])
  {
    match parsed
    case Failure(_) => Success(None)
    case Success(chain) => if |chain| > 0 then FromCertificate(chain[0]) else Success(None)
  }

  /** The certificate extensions a certificate issued for a type carries. */
  predicate CarriesPolicy(cert: Certificate, t: KeyType) {
    && cert.keyUsage == Some(t.KeyUsage())
    && (match t.ExtendedKeyUsage()
        case Some(purposes) => cert.extendedKeyUsage == EkuPresent(purposes)
        case None => cert.extendedKeyUsage == EkuAbsent)
  }

  /** The policy table and the classifier are inverse: a certificate carrying
      exactly the key usage and extended key usage of a type is classified as
      that type. */
  lemma ClassifyLeftInverse(cert: Certificate, t: KeyType)
    requires CarriesPolicy(cert, t)
    ensures FromCertificate(cert) == Success(Some(t))
  {
    match t
    case SIG =>
    case ENC =>
      assert DigitalSignature !in t.KeyUsage();
    case TLS =>
  }

  /** A certificate is classified as a type only when its extensions agree
      with that type's policy: the policy bits are asserted, and the EKU
      extension is present exactly for TLS. */
  lemma ClassifySound(cert: Certificate, t: KeyType)
    requires FromCertificate(cert) == Success(Some(t))
    ensures cert.keyUsage.Some? && t.KeyUsage() <= cert.keyUsage.value
    ensures cert.extendedKeyUsage.EkuPresent? <==> t == TLS
  {
  }

  /** Precedence: without an EKU extension the digital-signature bit makes a
      signature certificate even when the encryption bits are also set. */
  lemma SignatureBitWinsOverEncryption(cert: Certificate)
    requires cert.extendedKeyUsage == EkuAbsent
    requires cert.keyUsage.Some? && DigitalSignature in cert.keyUsage.value
    ensures FromCertificate(cert) == Success(Some(SIG))
    ensures KeyEncipherment in cert.keyUsage.value && KeyAgreement in cert.keyUsage.value ==>
      FromCertificate(cert) != Success(Some(ENC))
  {
  }

  /** With an EKU extension but no digital-signature bit, nothing is
      recognised: the encryption rule requires the EKU extension to be absent. */
  lemma EkuWithoutSignatureIsUnknown(cert: Certificate)
    requires cert.extendedKeyUsage.EkuPresent?
    requires cert.keyUsage.Some? && DigitalSignature !in cert.keyUsage.value
    ensures FromCertificate(cert) == Success(None)
  {
  }

  /** A certificate without a key-usage extension is not classified but
      fails, unless its EKU extension cannot be parsed. */
  lemma MissingKeyUsageFails(cert: Certificate)
    requires cert.keyUsage.None? && !cert.extendedKeyUsage.EkuUnparsable?
    ensures FromCertificate(cert) == Failure(NullKeyUsage)
  {
  }

  /** Distinct types are saved under distinct file names. */
  lemma FilenameInjective(t1: KeyType, t2: KeyType)
    requires t1.Filename() == t2.Filename()
    ensures t1 == t2
  {
  }
}
