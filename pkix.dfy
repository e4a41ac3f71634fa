/** The X.509 vocabulary the request engine works on: object identifiers,
    distinguished names, general names, keys and certificates as records.
    Encodings, signatures and hashes are not computed; where the engine
    derives a value from another by cryptography, the value is a symbolic
    term (an uninterpreted, injective constructor). */
module Pkix {
  import opened Wrappers

  /** An object identifier, as its sequence of arcs. */
  type Oid = seq<nat>

  // Attribute types of distinguished names (X.520, section 4.1.2.4 of RFC 5280)
  const OidCommonName: Oid := [2, 5, 4, 3]
  const OidCountry: Oid := [2, 5, 4, 6]
  const OidLocality: Oid := [2, 5, 4, 7]
  const OidState: Oid := [2, 5, 4, 8]
  const OidStreet: Oid := [2, 5, 4, 9]
  const OidOrganization: Oid := [2, 5, 4, 10]
  const OidOrganizationalUnit: Oid := [2, 5, 4, 11]
  /** postalCode, written "2.5.4.17" in the subject string. */
  const OidPostalCode: Oid := [2, 5, 4, 17]

  // Certificate extensions (section 4.2.1 of RFC 5280)
  const OidSubjectKeyIdentifier: Oid := [2, 5, 29, 14]
  const OidKeyUsage: Oid := [2, 5, 29, 15]
  const OidSubjectAltName: Oid := [2, 5, 29, 17]
  const OidExtendedKeyUsage: Oid := [2, 5, 29, 37]

  // Key purposes (section 4.2.1.12 of RFC 5280)
  const OidServerAuth: Oid := [1, 3, 6, 1, 5, 5, 7, 3, 1]
  const OidClientAuth: Oid := [1, 3, 6, 1, 5, 5, 7, 3, 2]

  /** The content-type signed attribute (section 11.1 of RFC 5652). */
  const OidContentType: Oid := [1, 2, 840, 113549, 1, 9, 3]

  /** One attribute type and value of a relative distinguished name. */
  datatype Ava = Ava(attrType: Oid, value: string)

  /** A relative distinguished name: a set of attribute values, kept in encoding order. */
  datatype Rdn = Rdn(avas: seq<Ava>)

  /** A distinguished name, as its sequence of RDNs. Name equality is
      structural (the canonical comparison of X500Principal is not modelled). */
  type Name = seq<Rdn>

  // GeneralName tags (section 4.2.1.6 of RFC 5280)
  const TagRfc822Name: nat := 1
  const TagDnsName: nat := 2
  const TagDirectoryName: nat := 4
  const TagUri: nat := 6

  datatype GeneralName = GeneralName(tag: nat, name: string)

  datatype KeyAlgorithm = Ec | OtherAlgorithm(name: string)

  /** Key material is opaque; only the algorithm family matters to the engine. */
  datatype PublicKey = PublicKey(algorithm: KeyAlgorithm, material: nat)
  datatype PrivateKey = PrivateKey(algorithm: KeyAlgorithm, material: nat)
  datatype KeyPair = KeyPair(pub: PublicKey, priv: PrivateKey)

  /** The extended-key-usage extension as X509Certificate.getExtendedKeyUsage
      sees it: absent (null), present with its purposes, or present but not
      parseable (CertificateParsingException). */
  datatype EkuExtension = EkuAbsent | EkuPresent(purposes: seq<Oid>) | EkuUnparsable

  /** A parsed certificate. keyUsage holds the positions of the asserted
      key-usage bits (section 4.2.1.3 of RFC 5280), None when the certificate
      has no key-usage extension (getKeyUsage returns null). subjectAltNames
      is None when the certificate has no SAN extension. */
  datatype Certificate = Certificate(
    serial: nat,
    subject: Name,
    issuer: Name,
    publicKey: PublicKey,
    keyUsage: Option<set<nat>>,
    extendedKeyUsage: EkuExtension,
    subjectAltNames: Option<seq<GeneralName>>)

  /** The SHA-1 subject key identifier of a public key (method 1 of section
      4.2.1.2 of RFC 5280), as a symbolic term: the digest is not computed. */
  datatype KeyIdentifier = Sha1KeyIdentifier(of: PublicKey)

  /** Why a certificate file could not be turned into certificates. */
  datatype CertificateLoadError = CertificateParseError | CertificateIoError

  // The certificates of several certificate files, file after file.

  /** The concatenation of a sequence of certificate files, in order. */
  function Flatten<T>(chains: seq<seq<T>>): seq<T>
    decreases |chains|
  {
    if |chains| == 0 then [] else Flatten(chains[..|chains| - 1]) + chains[|chains| - 1]
  }

  lemma FlattenPair<T>(a: seq<T>, b: seq<T>)
    ensures Flatten([a, b]) == a + b
  {
    assert [a, b][..1] == [a];
    assert [a][..0] == [];
    assert Flatten([a]) == a;
  }

  lemma FlattenSnoc<T>(chains: seq<seq<T>>, k: nat)
    requires k < |chains|
    ensures Flatten(chains[..k + 1]) == Flatten(chains[..k]) + chains[k]
  {
    assert chains[..k + 1][..k] == chains[..k];
  }
}
