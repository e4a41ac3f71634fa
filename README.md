# CRMF request engine for the smart-meter PKI, modelled in Dafny

This project models the request engine of `de.ebsnet.crmf`. That tool builds
certificate requests (RFC 4211 CRMF inside RFC 4210 PKI messages) for the
German smart-meter PKI of BSI TR-03109. A participant holds a certificate
triple: a signature (SIG), an encryption (ENC) and a TLS key.

The model covers the following:

- **Key types.** The fixed key-usage and extended-key-usage policy of each
  key type, and the classifier that reads a certificate's extensions back to
  a type.
- **Subject metadata.** The distinguished name built from the subject data,
  and the subject data read back from an existing certificate.
- **Request ids.** The process-wide request-id counter, with Java's 32-bit
  wrap-around.
- **Requests.** The per-type subject-alternative-name lists and extension
  lists; the order-preserving merge; the choice of PKI-message envelope by
  the renewal flag.
- **Commands.** The initial-request command, the stand-alone generator
  command, and the renewal command. The renewal merges the certificate
  files into one duplicate-free trust chain, checks it, and signs the
  requests with the previous key.
- **Outer signatures.** The CMS SignedData of both outer signatures
  (section 5 of RFC 5652), as an abstract record of what goes in.
- **Key loading.** The three key loaders that scan parsed PEM objects, and
  the per-type password fallback.
- **Keystore.** The PEM-to-PKCS#12 converter, with the keystore as a map
  from alias to entry.
- **Small parts.** The BSI PKI header, the `Triple` record, and the random
  password.

Cryptography and ASN.1 are symbolic. A subject key identifier is the term
`Sha1KeyIdentifier(publicKey)`. An encoding is `Encoded(messages, der)`. A
proof of possession is `SignaturePop(algorithm, privateKey)`.

Toolkit operations the engine calls become parameters or input values:

- decryption and the EC key factory (`KeyPairUtil.Toolkit`);
- `URI.create` (`parseUri`);
- the value of `CSRUtil.OID_CERT_REQ_MSGS` (`certReqMsgsOid`);
- the random draws (`draws`);
- the objects a PEM parser yields, the certificates of a certificate file,
  and the keystore found on disk.

Where the Java code mutates state, the model is imperative:

- the request-id counter is a class (`CsrUtil.RequestIdCounter`);
- the keystore is a class with a `map` field (`Pem2Pkcs12.KeyStore`);
- the CMS generator is a class (`Cms.SignedDataGenerator`);
- the loader scans, chain checks, de-duplication, chain assembly and the
  password fill are loops.

Each such method is proved equal to a specification function. The
properties are proved about those functions.

Exceptions become `Result` failures. Each failure names the exception's
cause:

- `NullKeyUsage`: the uncaught NullPointerException of the classifier;
- `MissingPublicKey`: the uncaught NullPointerException of `loadECKeyPair`
  for an EC private key without an embedded public key;
- `NullDnsName`: a TLS request whose URI has no host;
- `MissingAttribute`, `MissingSanEntry` and `InvalidUri`: metadata
  extraction;
- `CannotLoadKey` and `IllegalArgument`: key loading;
- `InvalidCertificateChain`: chain validation;
- `AliasExists` and `CertificateMismatch`: the keystore converter.

## Model

Source paths are relative to the repository root.

| member | source | states |
|---|---|---|
| KeyTypes.KeyType.KeyUsage | src/main/java/de/ebsnet/crmf/KeyType.java:54-59 | exactly {keyAgreement, keyEncipherment} (bits 4 and 2) for ENC and exactly {digitalSignature} (bit 0) for SIG and TLS; so bit 0 is requested by every type but ENC, and bits 2 and 4 together exactly by ENC |
| KeyTypes.KeyType.Filename | src/main/java/de/ebsnet/crmf/KeyType.java:18-22 | each file name is "_" and a three-letter tag followed by ".pem" (eight characters) |
| KeyTypes.KeyType.ExtendedKeyUsage | src/main/java/de/ebsnet/crmf/KeyType.java:66-76 | an extended key usage is present exactly for TLS, and it is [serverAuth, clientAuth] in that order |
| KeyTypes.FilenameInjective | src/main/java/de/ebsnet/crmf/KeyType.java:18-22 | distinct key types have distinct file names |
| KeyTypes.FromCertificate | src/main/java/de/ebsnet/crmf/KeyType.java:87-106 | fails (null key usage) exactly when the key-usage extension is absent and the EKU is parseable; TLS exactly with an EKU and bit 0; SIG exactly without EKU and with bit 0; ENC exactly without EKU, without bit 0, with bits 2 and 4 |
| KeyTypes.FromCertificateBytes | src/main/java/de/ebsnet/crmf/KeyType.java:78-85 | a parse failure or an empty chain yields no type; otherwise the result is the classification of the first certificate only |
| KeyTypes.ClassifyLeftInverse | src/main/java/de/ebsnet/crmf/KeyType.java:54-106 | a certificate carrying exactly a type's key usage and extended key usage is classified as that type (the policy table and the classifier are inverse) |
| KeyTypes.ClassifySound | src/main/java/de/ebsnet/crmf/KeyType.java:87-106 | a classified certificate asserts all key-usage bits of its type, and has an EKU extension exactly when the type is TLS |
| KeyTypes.SignatureBitWinsOverEncryption | src/main/java/de/ebsnet/crmf/KeyType.java:94-102 | without EKU, any key usage containing bit 0 gives SIG, and never ENC even when bits 2 and 4 are also set (first-match precedence) |
| KeyTypes.EkuWithoutSignatureIsUnknown | src/main/java/de/ebsnet/crmf/KeyType.java:90-105 | an EKU extension without bit 0 yields no type, never ENC |
| KeyTypes.MissingKeyUsageFails | src/main/java/de/ebsnet/crmf/KeyType.java:90-104 | a certificate without a key-usage extension (and with a parseable EKU) fails with the null dereference instead of yielding no type |
| Triples.Triple.Stream | src/main/java/de/ebsnet/crmf/data/Triple.java:6-8 | three elements, holding exactly the encryption, signature and transport values |
| Triples.StreamRoundTrip | src/main/java/de/ebsnet/crmf/data/Triple.java:6-8 | stream() is [encryption, signature, transport] and is inverted by rebuilding the record from it |
| Triples.StreamInjective | src/main/java/de/ebsnet/crmf/data/Triple.java:5-8 | triples with equal streams are equal: stream() keeps every component, duplicates included |
| Metadata.NormalizedName | src/main/java/de/ebsnet/crmf/data/CSRMetadata.java:84 | the common name contains ".EMT.MAK"; it is the name itself when the name already contains it anywhere, and the name with ".EMT.MAK" appended otherwise |
| Metadata.NormalizedNameIdempotent | src/main/java/de/ebsnet/crmf/data/CSRMetadata.java:84 | normalising twice is normalising once |
| Metadata.ToName | src/main/java/de/ebsnet/crmf/data/CSRMetadata.java:96-97 | the joined "K=V" string is parsed back into one single-valued RDN per pair, in order |
| Metadata.ToSubject | src/main/java/de/ebsnet/crmf/data/CSRMetadata.java:83-98 | one single-valued RDN per attribute: CN with the normalised name, O, OU and C first, then one per present optional field |
| Metadata.SubjectShape | src/main/java/de/ebsnet/crmf/data/CSRMetadata.java:83-98 | the subject begins CN, O, OU, C with the normalised name, pki, gln and country; it has one more attribute per present optional field and none per absent one; attribute types follow the order CN, O, OU, C, L, STREET, ST, 2.5.4.17 strictly |
| Metadata.SubjectRecoversFields | src/main/java/de/ebsnet/crmf/data/CSRMetadata.java:83-98 | reading each attribute type back from the built subject gives the field it was built from (O from pki, OU from gln, C from country, L from city, STREET from street, ST from state, postal code from postalCode, CN the normalised name) |
| Metadata.ExtractFromCertificate | src/main/java/de/ebsnet/crmf/data/CSRMetadata.java:65-70 | nothing exactly when no RDN holds the type; otherwise the first value of the first RDN holding it |
| Metadata.FirstWithTag | src/main/java/de/ebsnet/crmf/data/CSRMetadata.java:72-81 | nothing exactly when no general name has the tag; otherwise the name of the first one with it |
| Metadata.ExtractSan | src/main/java/de/ebsnet/crmf/data/CSRMetadata.java:72-81 | no SAN extension fails; no general name with the tag fails naming the tag; a success is the name of the first general name with the tag |
| Metadata.FromCertificate | src/main/java/de/ebsnet/crmf/data/CSRMetadata.java:42-63 | on success every field is what extraction finds: name from CN, gln from OU, pki from O, country from C, uri from the first SAN URI, email from the first SAN rfc822 name, and the optional fields from L, STREET, ST and postal code |
| Metadata.MissingRequiredAttributeFails | src/main/java/de/ebsnet/crmf/data/CSRMetadata.java:47-56 | a subject without CN, OU, O or C makes reading the metadata fail; without CN it fails naming CN |
| Metadata.FromCertificateRoundTrip | src/main/java/de/ebsnet/crmf/data/CSRMetadata.java:42-63 | a certificate whose subject was built from metadata, and whose SAN carries that URI and e-mail, gives that metadata back with the name normalised |
| Metadata.RenewedSubjectUnchanged | src/main/java/de/ebsnet/crmf/data/CSRMetadata.java:42-98 | the subject rebuilt from metadata read back from such a certificate is the certificate's subject |
| BsiHeaders.NewBsiPkiHeader | src/main/java/de/ebsnet/crmf/BSIPKIHeader.java:24-27 | a new header has pvno CMP_2000 and NULL_NAME as sender and recipient |
| BsiHeaders.Get | src/main/java/de/ebsnet/crmf/BSIPKIHeader.java:34-104 | every accessor returns the inherited value and logs one warning naming the accessor |
| BsiHeaders.FreshHeaderAccessors | src/main/java/de/ebsnet/crmf/BSIPKIHeader.java:24-104 | a fresh header reports version 2, the null directory name as sender and recipient, and nothing for every optional field |
| BsiHeaders.ToAsn1Primitive | src/main/java/de/ebsnet/crmf/BSIPKIHeader.java:21-32 | the header encodes as the OID 0.4.0.127.0.7.4.1.1.1 |
| BsiHeaders.AccessorNamesDistinct | src/main/java/de/ebsnet/crmf/BSIPKIHeader.java:34-104 | distinct accessors warn under distinct names |
| CsrUtil.Int32Inc | src/main/java/de/ebsnet/crmf/CSRUtil.java:155 | Java's int increment: stays in the int range, adds one below the maximum, wraps to the minimum at it |
| CsrUtil.RequestIdCounter.constructor | src/main/java/de/ebsnet/crmf/CSRUtil.java:59-61 | the counter starts at a seed in [0, 2^31 - 5] |
| CsrUtil.RequestIdCounter.GetAndIncrement | src/main/java/de/ebsnet/crmf/CSRUtil.java:155 | returns the current value and advances the counter by one int increment |
| CsrUtil.Advanced | src/main/java/de/ebsnet/crmf/CSRUtil.java:155 | the counter after n allocations stays in the int range, and is v + n when that does not pass the int maximum |
| CsrUtil.AllocationsConsecutive | src/main/java/de/ebsnet/crmf/CSRUtil.java:155 | away from the top of the int range, successive allocations give consecutive ids |
| CsrUtil.SeedLeavesRoom | src/main/java/de/ebsnet/crmf/CSRUtil.java:59-61 | from every possible seed, five allocations give non-negative consecutive ids |
| CsrUtil.SixthAllocationCanWrap | src/main/java/de/ebsnet/crmf/CSRUtil.java:59-61 | the bound is tight: from the largest seed the sixth id is the int minimum |
| CsrUtil.SubjectAlternativeNames | src/main/java/de/ebsnet/crmf/CSRUtil.java:186-197 | [rfc822 email, dNSName host, URI] for TLS, [rfc822 email, URI] for the other types; fails exactly for TLS with a host-less URI; the first entry of each tag is the email, the URI and (TLS only) the host |
| CsrUtil.RequestExtensions | src/main/java/de/ebsnet/crmf/CSRUtil.java:158-173 | subject key identifier (non-critical), key usage of the type, SAN, then for TLS only the EKU [serverAuth, clientAuth]; every extension but the first is critical |
| CsrUtil.Request | src/main/java/de/ebsnet/crmf/CSRUtil.java:139-176 | fails exactly when the SAN list fails; otherwise carries the id, subject, public key, extensions, registration info and a proof of possession signed with the pair's private key |
| CsrUtil.NewCertReqMsg | src/main/java/de/ebsnet/crmf/CSRUtil.java:139-176 | the request for the counter's current value with SHA384withECDSA proof of possession; the counter advances by one exactly when the request is built |
| CsrUtil.IssuedCertificateRoundTrip | src/main/java/de/ebsnet/crmf/CSRUtil.java:139-176 | a certificate issued as a request of type t asks is classified back as t, and metadata extraction reads the request's URI and e-mail from it |
| CsrUtil.Merge | src/main/java/de/ebsnet/crmf/CSRUtil.java:69-74 | the collection holds exactly the given requests, in order, duplicates kept |
| CsrUtil.AsPkiMessageOfContent | src/main/java/de/ebsnet/crmf/CSRUtil.java:105-109 | renewal header exactly when renewing, BSI header otherwise; cert-req body exactly when renewing, init-req body exactly when not; the content is kept |
| CsrUtil.AsPkiMessageOfRequests | src/main/java/de/ebsnet/crmf/CSRUtil.java:100-103 | the collection is the content; renewal header and cert-req body exactly when renewing, BSI header and init-req body otherwise; the envelope reads back as (collection, renewal) |
| CsrUtil.AsPkiMessage | src/main/java/de/ebsnet/crmf/CSRUtil.java:88-90 | the one-argument overload is an initial request under a fresh BSI header |
| CsrUtil.UnwrapAsPkiMessage | src/main/java/de/ebsnet/crmf/CSRUtil.java:105-109 | content and renewal flag are read back from the envelope unchanged |
| CsrUtil.EnvelopeConsistent | src/main/java/de/ebsnet/crmf/CSRUtil.java:105-109 | header and body type always agree on whether the message is a renewal |
| CsrUtil.OuterSignatureOfData | src/main/java/de/ebsnet/crmf/CSRUtil.java:205-235 | one signer: SHA256withECDSA with the pair's private key, identified by chain[0]'s issuer and serial number, one content-type attribute 0.4.0.127.0.7.4.1.1.1; only chain[0] attached; the data encapsulated under that content type; a recipient can verify it from the attached certificate |
| CsrUtil.OuterSignature | src/main/java/de/ebsnet/crmf/CSRUtil.java:199-203 | the encapsulated data is the DER encoding of the request collection |
| RenewalUtil.ContentTypeAttributes | src/main/java/de/ebsnet/crmf/RenewalUtil.java:43-45 | exactly one signed attribute, the content type, naming the request-collection content type |
| RenewalUtil.SignedRequests | src/main/java/de/ebsnet/crmf/RenewalUtil.java:38-74 | verifiable standalone; one SHA256withECDSA signer with the given private key, identified by the SHA-1 key identifier of chain[0]'s public key and carrying the content-type attribute; every chain certificate attached; the data encapsulated under the content type |
| RenewalUtil.OuterSignatureOfData | src/main/java/de/ebsnet/crmf/RenewalUtil.java:38-74 | the generator assembles exactly SignedRequests: one signer named by chain[0]'s key identifier, every chain certificate, the data encapsulated |
| RenewalUtil.OuterSignature | src/main/java/de/ebsnet/crmf/RenewalUtil.java:32-36 | SignedRequests over the default encoding of the collection |
| PemObjects.PasswordSourceFor | src/main/java/de/ebsnet/crmf/BaseCommand.java:111-113 | the supplied password when one is given, otherwise a prompt naming the key file |
| PemObjects.FirstAccepted | src/main/java/de/ebsnet/crmf/util/KeyPairUtil.java:39-49 | the position of the first object the loader acts on, every earlier one skipped; nothing exactly when no object qualifies |
| KeyPairUtil.LoadEcKeyPair | src/main/java/de/ebsnet/crmf/util/KeyPairUtil.java:69-95 | fails with CannotLoadKey, or with the escaping null dereference exactly when an EC private key carries no public key; a non-EC private key fails with "does not look like a EC key"; on success the key is EC and the public key is the one embedded in the private-key structure, under its algorithm identifier |
| KeyPairUtil.LoadObject | src/main/java/de/ebsnet/crmf/util/KeyPairUtil.java:54-108 | a PEM key pair is taken as is; an encrypted PEM pair loads exactly when its decryption with the supplied or prompted password does, and otherwise fails with that decryption error; every other failure is CannotLoadKey or the escaping null dereference; an undecryptable PKCS#8 structure fails with "cannot decrypt private key"; keys from private-key structures are EC keys |
| KeyPairUtil.LoadResult | src/main/java/de/ebsnet/crmf/util/KeyPairUtil.java:36-52 | no key object fails with "unsupported key format"; otherwise the first key object decides; never an illegal-argument failure; a success comes from a key object of the file |
| KeyPairUtil.LoadKeyPair | src/main/java/de/ebsnet/crmf/util/KeyPairUtil.java:36-52 | the scanning loop returns exactly LoadResult |
| KeyPairUtil.FirstKeyObjectWins | src/main/java/de/ebsnet/crmf/util/KeyPairUtil.java:39-49 | unrecognised objects before a key object are skipped and the key object decides, whatever follows |
| KeyPairUtil.NoKeyObjectFails | src/main/java/de/ebsnet/crmf/util/KeyPairUtil.java:50 | a file without a key object fails with "unsupported key format" |
| KeyPairUtil.FailuresAreMapped | src/main/java/de/ebsnet/crmf/util/KeyPairUtil.java:64-94 | a decryption failure needs an encrypted PEM key pair in the file, the null dereference a private-key structure; every other failure is CannotLoadKey |
| BaseCommand.PassForType | src/main/java/de/ebsnet/crmf/BaseCommand.java:77-84 | the type's own password when given, otherwise the shared key password; absent exactly when both are absent |
| BaseCommand.PassForTypeSelects | src/main/java/de/ebsnet/crmf/BaseCommand.java:78-83 | SIG reads sigPass, ENC encPass, TLS tlsPass; with a shared password every type has one |
| BaseCommand.LoadResult | src/main/java/de/ebsnet/crmf/BaseCommand.java:94-121 | no PEM key pair of either kind fails with "not a PEM encoded EC key."; otherwise the first one decides: a plain pair is the result, an encrypted one is decrypted with the supplied or prompted password, its failure the error; failures are only these two |
| BaseCommand.LoadKeyPair | src/main/java/de/ebsnet/crmf/BaseCommand.java:94-106 | the scan returns the outcome of the first plain or encrypted PEM key pair |
| BaseCommand.Pkcs8NotAccepted | src/main/java/de/ebsnet/crmf/BaseCommand.java:97-104 | this loader skips PKCS#8 objects: a file of them only is rejected |
| BaseCommand.FirstKeyPairWins | src/main/java/de/ebsnet/crmf/BaseCommand.java:97-115 | the first PEM key pair decides whatever follows it: a plain one is returned, an encrypted one gives its decryption outcome |
| X509Util.FirstBrokenLink | src/main/java/de/ebsnet/crmf/util/X509Util.java:26-33 | nothing exactly when every link from the start position holds; otherwise the first broken link |
| X509Util.ChainError | src/main/java/de/ebsnet/crmf/util/X509Util.java:17-42 | no error exactly for a complete chain (at least two certificates, each issued by the next one's subject, ending self-issued); a chain shorter than two reports its length |
| X509Util.ValidateCertificateChain | src/main/java/de/ebsnet/crmf/util/X509Util.java:17-42 | the validation loop throws exactly the error of the reference definition |
| X509Util.FirstDefectReported | src/main/java/de/ebsnet/crmf/util/X509Util.java:26-33 | the error names the first broken link, even when later links are broken too |
| X509Util.LeafAndRootComplete | src/main/java/de/ebsnet/crmf/util/X509Util.java:19-41 | [leaf, root] with leaf issued by a self-issued root passes |
| X509Util.SingleCertificateIncomplete | src/main/java/de/ebsnet/crmf/util/X509Util.java:19-25 | one certificate, even self-issued, is too short |
| Initial.InitialRequests | src/main/java/de/ebsnet/crmf/Initial.java:117-135 | fails exactly when the URI has no host; otherwise the SIG, ENC and TLS requests, in that order, with consecutive ids, all from the signature key pair, the metadata's subject, URI and e-mail |
| Initial.InitialRequestsShape | src/main/java/de/ebsnet/crmf/Initial.java:120-134 | all three requests carry the signature public key and one subject, ask for the SIG, ENC and TLS key usage in order, and only the TLS one carries an EKU |
| Initial.OnlySignatureKeyUsed | src/main/java/de/ebsnet/crmf/Initial.java:122-132 | the encryption and transport key pairs do not influence the requests |
| Initial.GenerateCertReqMessages | src/main/java/de/ebsnet/crmf/Initial.java:117-135 | the requests built on CSRUtil's counter from its current value; the counter advances by three, or by two when the TLS request fails |
| Initial.GenerateCsr | src/main/java/de/ebsnet/crmf/Initial.java:112-115 | the collection under the non-renewal content-info path; the counter advances by three, or by two when the TLS request fails |
| Initial.MetadataOf | src/main/java/de/ebsnet/crmf/Initial.java:93-104 | each option goes to the record field of the same name |
| Initial.LoadTyped | src/main/java/de/ebsnet/crmf/Initial.java:88-92 | a key file is loaded with the password of its own type |
| Initial.Call | src/main/java/de/ebsnet/crmf/Initial.java:86-110 | key pairs loaded as encryption, signature, transport, the first failure reported with the counter untouched; with all loaded, the content info of the initial requests, the counter advanced by three (two when the TLS request fails) |
| Renew.DedupProperties | src/main/java/de/ebsnet/crmf/Renew.java:91-97 | the de-duplicated chain has no duplicates, holds exactly the input certificates and keeps the first one first |
| Renew.DedupAbsorbs | src/main/java/de/ebsnet/crmf/Renew.java:136-140 | de-duplicating an already de-duplicated prefix again changes nothing |
| Renew.BuildTrustChain | src/main/java/de/ebsnet/crmf/Renew.java:91-97 | the concatenation of the chains with later duplicates dropped, in first-seen order |
| Renew.DistinctChainsConcatenate | src/main/java/de/ebsnet/crmf/Renew.java:91-97 | chains with no certificate in common, and none twice, are simply concatenated |
| Renew.AccumulateChain | src/main/java/de/ebsnet/crmf/Renew.java:136-140 | folding the trust-chain files and then putting the previous certificates in front is one de-duplication of everything in order |
| Renew.AccumulatedChainShape | src/main/java/de/ebsnet/crmf/Renew.java:135-140 | the accumulated chain starts with the previous certificate, has no duplicates and holds every certificate of every file |
| Renew.IsCompleteTrustChain | src/main/java/de/ebsnet/crmf/Renew.java:100-125 | true exactly for a complete chain; a broken link or missing root is warned about with the defect validation would report; a short chain is rejected without warning |
| Renew.CheckersAgree | src/main/java/de/ebsnet/crmf/Renew.java:100-125 | the boolean check holds exactly when the throwing validation returns normally; a chain shorter than two is incomplete |
| Renew.RenewalRequests | src/main/java/de/ebsnet/crmf/Renew.java:151-153 | succeeds exactly when metadata can be read from the previous certificate and its URI has a host; then the initial requests for that metadata |
| Renew.RenewalOutcome | src/main/java/de/ebsnet/crmf/Renew.java:136-158 | succeeds exactly when there is a previous certificate and its requests can be built; then a renewal content info whose SignedData is verifiable standalone, signed by the previous key, named by the first certificate's key identifier, over the accumulated chain, which starts with the previous certificate; chain completeness reported alongside |
| Renew.RenewalIdsUsed | src/main/java/de/ebsnet/crmf/Renew.java:151-153 | at most three ids, and none exactly when the previous certificate's metadata cannot be read |
| Renew.GenerateRenewalRequests | src/main/java/de/ebsnet/crmf/Renew.java:151-153 | the requests of the renewal built on CSRUtil's counter; the counter advances by the ids the renewal uses, by three on success |
| Renew.Renewing | src/main/java/de/ebsnet/crmf/Renew.java:136-158 | the renewal outcome for the counter's current value; the counter is untouched without a previous certificate, and otherwise advances by the ids the renewal uses |
| Renew.Call | src/main/java/de/ebsnet/crmf/Renew.java:127-163 | previous key, then encryption, signature and transport key loaded, the first failure reported with the counter untouched; then the renewal outcome, the counter advancing as in Renewing |
| Renew.IncompleteChainStillRenews | src/main/java/de/ebsnet/crmf/Renew.java:142-144 | the trust-chain files never decide whether a renewal succeeds: an incomplete chain is only a warning |
| CsrGenerator.GeneratorSubjectIsProfileSubject | src/main/java/de/ebsnet/crmf/CSRGenerator.java:152-164 | the generator's DN is the profile DN of the name with ".EMT.MAK" appended unconditionally: CN, O, OU, C, then the present optional fields in rank order |
| CsrGenerator.GeneratorAndMetadataSubjects | src/main/java/de/ebsnet/crmf/CSRGenerator.java:154 | for a name without the suffix the generator and CSRMetadata agree; for a name already carrying it the generator's CN differs |
| CsrGenerator.GeneratorCertReqMsg | src/main/java/de/ebsnet/crmf/CSRGenerator.java:194-228 | a request for the generator counter's current value with SHA256withECDSA proof of possession and no registration info; the counter advances exactly when it is built |
| CsrGenerator.Merge | src/main/java/de/ebsnet/crmf/CSRGenerator.java:257-263 | one request per argument, in argument order |
| CsrGenerator.Wrap | src/main/java/de/ebsnet/crmf/CSRGenerator.java:271-274 | always an initial request under the BSI header, the envelope of CSRUtil's one-argument overload, which reads back as (collection, not renewal) |
| CsrGenerator.GeneratorMessage | src/main/java/de/ebsnet/crmf/CSRGenerator.java:166-176 | fails exactly when the URI has no host; otherwise a wrapped collection of three requests |
| CsrGenerator.MergedIdsDescend | src/main/java/de/ebsnet/crmf/CSRGenerator.java:166-175 | from start id N the collection's ids read N + 2, N + 1, N |
| CsrGenerator.MergedRequestKeys | src/main/java/de/ebsnet/crmf/CSRGenerator.java:166-175 | the collection lists the TLS, ENC and SIG requests, each with its own key pair's public key and proof of possession, all for the generator's subject |
| CsrGenerator.MergedRequestUsages | src/main/java/de/ebsnet/crmf/CSRGenerator.java:166-175 | the three requests ask for the TLS, ENC and SIG key usage in that order |
| CsrGenerator.LoadResult | src/main/java/de/ebsnet/crmf/CSRGenerator.java:301-313 | the first PEM key pair of the file, every other object skipped; none fails with "not a PEM encoded EC key." |
| CsrGenerator.LoadKeyPair | src/main/java/de/ebsnet/crmf/CSRGenerator.java:301-313 | the while loop stops at the first PEM key pair and returns it |
| CsrGenerator.Call | src/main/java/de/ebsnet/crmf/CSRGenerator.java:151-179 | each key is loaded just before its request (SIG, ENC, TLS); a failed load reports its error and leaves the ids of earlier requests used; with all loaded, the generator's message, the counter advanced by three (two when the TLS request fails) |
| Pem2Pkcs12.KeyStore.SetKeyEntry | src/main/java/de/ebsnet/crmf/PEM2PKCS12.java:99-103 | the alias maps to the key, password and chain; no other alias changes |
| Pem2Pkcs12.LoadKeyStore | src/main/java/de/ebsnet/crmf/PEM2PKCS12.java:127-142 | a new keystore holding the stored entries when the path is a regular file, empty otherwise |
| Pem2Pkcs12.ConvertOutcome | src/main/java/de/ebsnet/crmf/PEM2PKCS12.java:84-111 | an existing alias fails before the key is loaded; a key failure is reported; with a free alias and a loaded key, an incomplete chain is rejected with its first defect and nothing written, and a complete one is written when the file opens, as the stored entries plus alias mapped to the key, store password and the certificate file's certificates followed by each trusted file's; the file fails to open exactly when the option forbids an existing file |
| Pem2Pkcs12.Call | src/main/java/de/ebsnet/crmf/PEM2PKCS12.java:77-112 | the keystore loaded, alias checked, key loaded, chain appended file by file, validated, entry set and file opened, with the outcome of the reference definition |
| Pem2Pkcs12.ExistingStoreNeverExtended | src/main/java/de/ebsnet/crmf/PEM2PKCS12.java:105-107 | with CREATE_NEW, an existing keystore file is never written back: whenever the key would be added, opening fails |
| Pem2Pkcs12.ExistingStoreExtended | src/main/java/de/ebsnet/crmf/PEM2PKCS12.java:36-40 | replacing the file instead, an existing keystore gains the entry and keeps the others |
| Pem2Pkcs12.PemToPkcs12Outcome | src/main/java/de/ebsnet/crmf/PEM2PKCS12.java:144-171 | succeeds exactly when the key loads, a certificate exists and its public key is the pair's; then exactly one entry under alias; a different public key fails with both keys named |
| Pem2Pkcs12.PemToPkcs12 | src/main/java/de/ebsnet/crmf/PEM2PKCS12.java:144-171 | a fresh keystore whose entries are those of the reference definition, or its error |
| Utils.AlphabetChar | src/main/java/de/ebsnet/crmf/Utils.java:6-7 | each position of the alphabet holds a letter or a digit |
| Utils.AlphabetIsAlphaNum | src/main/java/de/ebsnet/crmf/Utils.java:6-7 | the alphabet has 62 characters: A-Z, then a-z, then 0-9 |
| Utils.EveryAlphaNumInAlphabet | src/main/java/de/ebsnet/crmf/Utils.java:6-7 | a character is in the alphabet exactly when it is an ASCII letter or digit |
| Utils.RandomPwdFrom | src/main/java/de/ebsnet/crmf/Utils.java:10-16 | a new array of the requested length whose position i holds the alphabet character of the i-th draw |
| Utils.RandomPwd | src/main/java/de/ebsnet/crmf/Utils.java:18-20 | 32 characters, each the drawn alphabet character and each a letter or a digit |

## Left out

- File, console and keystore I/O is not modelled. This covers PEM parsing,
  certificate decoding (`loadCertificateChain` in `X509Util` and
  `BaseCommand`), keystore loading and storing, and password prompts.
  Parsed objects, certificates and stored entries are inputs.
- Writing the result with `Files.write(..., CREATE_NEW)` in `Initial`,
  `Renew` and `CSRGenerator` is not modelled. The model returns the content
  that would be written.
- Cryptography is symbolic: signing, SHA-1 key identifiers, decryption and
  DER encoding.
- Distinguished-name strings are not modelled. Escaping and parsing of the
  comma-joined "K=V" string are left out, so a value holding `,` or `=`
  would parse differently in Java. Names are compared structurally, not by
  the canonical comparison of `X500Principal`.
- Toolkit failures that do not depend on the engine's inputs are not
  modelled:
  - `OperatorCreationException` when a content signer is built;
  - `CRMFException` and `CMSException`;
  - `PEMException` when a plain PEM key pair is converted.
- `CSRUtil.asContentInfo`, `buildCertificateRequestMessages`,
  `OID_CERT_REQ_MSGS`, `BSIRenewalHeader` and `CSRGenerator.init` are not
  part of this model. They are kept as uninterpreted terms or parameters.
- `AtomicInteger` atomicity and the random seed's value are left out. The
  counter is used sequentially, and its seed is a constructor argument
  bounded as `nextInt` bounds it.
- The CMS generator's default signed attributes (message digest, signing
  time) are not modelled; only the attribute table the engine supplies is.
- Logging is not modelled. `Renew.IsCompleteTrustChain` returns its
  warning as the defect it reports, and `Pem2Pkcs12.ConvertOutcome`
  returns the rejected chain's defect. `Renew.Renewing` keeps only whether
  the chain is complete and drops the warning itself.
- `CsrUtil.OuterSignature` and `CsrUtil.OuterSignatureOfData` require a
  non-empty chain. On an empty chain the source throws an index exception
  at `chain[0]`; that error is not modelled.
- `RenewalUtil.OuterSignature` and `RenewalUtil.OuterSignatureOfData`
  require a non-empty chain, for the same reason. `Renew` only calls them
  with a chain that starts with the previous certificate.
- `Renew.Call`: an absent `--trust-chain` option leaves the array null, and
  the loop at Renew.java:137 throws. The model treats an absent option as
  an empty list.
- `Pem2Pkcs12.Call`: an absent `--trusted` option leaves the list null, and
  the loop at PEM2PKCS12.java:93 throws. The model treats it as an empty
  list. The case of an output path that exists but is not a regular file
  is not modelled.
- `Utils.RandomPwdFrom`: a negative length is not modelled (the length is
  a `nat`). The random generator is the sequence of its draws, each below
  the alphabet length, as `nextInt` guarantees.
- `SendRequest` (a SOAP/TLS client), `VersionProvider`, `SignedCSRData`,
  the exception classes, the interactive password providers, the `main`
  methods, and the deprecated brainpool `generateKeyPair` are not part of
  this model.

## Findings

| source | as written | input that shows it | evidently intended | confidence | as-written member | corrected member |
|---|---|---|---|---|---|---|
| src/main/java/de/ebsnet/crmf/PEM2PKCS12.java:105 | the keystore is first loaded from `--out` when that path is a regular file, then stored back with `StandardOpenOption.CREATE_NEW` | `--out` names an existing keystore that does not hold the alias, with a loadable key and a complete chain: opening the file fails with FileAlreadyExistsException, and the key is never added | the option's description at PEM2PKCS12.java:39 ("If it already exists, the key is added"): the existing file is replaced by the extended keystore | not executed | Pem2Pkcs12.ExistingStoreNeverExtended | Pem2Pkcs12.ExistingStoreExtended |
