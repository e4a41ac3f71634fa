/** CSRMetadata: the subject data of a request, the distinguished name built
    from it, and its reverse extraction from an existing certificate. */
module Metadata {
  import opened Wrappers
  import opened Pkix

  /** A parsed java.net.URI: its string form and its host, None when the URI
      has no host (getHost() returns null). */
  datatype Uri = Uri(text: string, host: Option<string>)

  /** The record, in its declared field order. */
  datatype CsrMetadata = CsrMetadata(
    name: string,
    gln: string,
    uri: Uri,
    email: string,
    pki: string,
    country: string,
    state: Option<string>,
    city: Option<string>,
    postalCode: Option<string>,
    street: Option<string>)

  /** The suffix every common name of the profile carries. */
  const CnSuffix: string := ".EMT.MAK"

  predicate OccursAt(s: string, sub: string, i: nat) {
    i + |sub| <= |s| && s[i..i + |sub|] == sub
  }

  /** String.contains. */
  predicate Contains(s: string, sub: string) {
    exists i: nat | i <= |s| :: OccursAt(s, sub, i)
  }

  /** The common name: the name with the suffix appended unless the suffix
      already occurs somewhere in it. */
  function NormalizedName(name: string): (cn: string)
    ensures Contains(cn, CnSuffix)
    ensures Contains(name, CnSuffix) ==> cn == name
    ensures !Contains(name, CnSuffix) ==> cn == name + CnSuffix
  {
    if Contains(name, CnSuffix) then name
    else
      assert OccursAt(name + CnSuffix, CnSuffix, |name|);
      name + CnSuffix
  }

  lemma NormalizedNameIdempotent(name: string)
    ensures NormalizedName(NormalizedName(name)) == NormalizedName(name)
  {
  }

  /** An optional attribute: one entry when present, nothing when absent. */
  function OptionalAva(attrType: Oid, value: Option<string>): seq<Ava> {
    if value.Some? then [Ava(attrType, value.value)] else []
  }

  /** The attributes toSubject emits, in emission order. */
  function SubjectAttributes(m: CsrMetadata): seq<Ava> {
    [ Ava(OidCommonName, NormalizedName(m.name)),
      Ava(OidOrganization, m.pki),
      Ava(OidOrganizationalUnit, m.gln),
      Ava(OidCountry, m.country) ]
    + OptionalAva(OidLocality, m.city)
    + OptionalAva(OidStreet, m.street)
    + OptionalAva(OidState, m.state)
    + OptionalAva(OidPostalCode, m.postalCode)
  }

  /** The comma-joined "K=V" string parsed back: every pair becomes a
      single-valued RDN, in order. */
  function ToName(avas: seq<Ava>): (n: Name)
    ensures |n| == |avas|
    ensures forall i | 0 <= i < |avas| :: n[i] == Rdn([avas[i]])
  {
    seq(|avas|, i requires 0 <= i < |avas| => Rdn([avas[i]]))
  }

  /** toSubject: one single-valued RDN per attribute, CN, O, OU and C first,
      then one per present optional field. */
  function ToSubject(m: CsrMetadata): (n: Name)
    ensures |n| == 4 + Count(m.city) + Count(m.street) + Count(m.state) + Count(m.postalCode)
    ensures n[0] == Rdn([Ava(OidCommonName, NormalizedName(m.name))])
    ensures n[1] == Rdn([Ava(OidOrganization, m.pki)])
    ensures n[2] == Rdn([Ava(OidOrganizationalUnit, m.gln)])
    ensures n[3] == Rdn([Ava(OidCountry, m.country)])
    ensures forall i | 0 <= i < |n| :: |n[i].avas| == 1
  {
    SubjectShape(m);
    ToName(SubjectAttributes(m))
  }

  /** Position of an attribute type in the profile's fixed order
      CN, O, OU, C, L, STREET, ST, postal code. */
  function Rank(attrType: Oid): nat {
    if attrType == OidCommonName then 0
    else if attrType == OidOrganization then 1
    else if attrType == OidOrganizationalUnit then 2
    else if attrType == OidCountry then 3
    else if attrType == OidLocality then 4
    else if attrType == OidStreet then 5
    else if attrType == OidState then 6
    else if attrType == OidPostalCode then 7
    else 8
  }

  /** The eight attribute types of the profile are distinct, and Rank tells them apart. */
  lemma RankOfAttributeTypes()
    ensures Rank(OidCommonName) == 0 && Rank(OidOrganization) == 1
    ensures Rank(OidOrganizationalUnit) == 2 && Rank(OidCountry) == 3
    ensures Rank(OidLocality) == 4 && Rank(OidStreet) == 5
    ensures Rank(OidState) == 6 && Rank(OidPostalCode) == 7
  {
    assert OidCommonName[3] == 3 && OidOrganization[3] == 10 && OidOrganizationalUnit[3] == 11;
    assert OidCountry[3] == 6 && OidLocality[3] == 7 && OidStreet[3] == 9;
    assert OidState[3] == 8 && OidPostalCode[3] == 17;
  }

  function Count(o: Option<string>): nat {
    if o.Some? then 1 else 0
  }

  predicate RanksIncrease(avas: seq<Ava>) {
    forall i, j | 0 <= i < j < |avas| :: Rank(avas[i].attrType) < Rank(avas[j].attrType)
  }

  predicate RanksWithin(avas: seq<Ava>, lo: nat, hi: nat) {
    forall i | 0 <= i < |avas| :: lo <= Rank(avas[i].attrType) < hi
  }

  lemma ConcatRanksIncrease(a: seq<Ava>, b: seq<Ava>, lo: nat, mid: nat, hi: nat)
    requires lo <= mid <= hi
    requires RanksIncrease(a) && RanksWithin(a, lo, mid)
    requires RanksIncrease(b) && RanksWithin(b, mid, hi)
    ensures RanksIncrease(a + b) && RanksWithin(a + b, lo, hi)
  {
    forall i, j | 0 <= i < j < |a + b|
      ensures Rank((a + b)[i].attrType) < Rank((a + b)[j].attrType)
    {
      if j < |a| {
        assert (a + b)[i] == a[i] && (a + b)[j] == a[j];
      } else if i < |a| {
        assert (a + b)[i] == a[i] && (a + b)[j] == b[j - |a|];
      } else {
        assert (a + b)[i] == b[i - |a|] && (a + b)[j] == b[j - |a|];
      }
    }
    forall i | 0 <= i < |a + b|
      ensures lo <= Rank((a + b)[i].attrType) < hi
    {
      if i < |a| { assert (a + b)[i] == a[i]; } else { assert (a + b)[i] == b[i - |a|]; }
    }
  }

  lemma OptionalAvaRank(attrType: Oid, value: Option<string>)
    ensures RanksIncrease(OptionalAva(attrType, value))
    ensures RanksWithin(OptionalAva(attrType, value), Rank(attrType), Rank(attrType) + 1)
  {
  }

  /** The subject starts with CN, O, OU and C, always, then holds one entry
      per present optional field and none per absent one; every attribute
      type comes in the fixed order, so no type occurs twice. */
  lemma SubjectShape(m: CsrMetadata)
    ensures var avas := SubjectAttributes(m);
      && |avas| == 4 + Count(m.city) + Count(m.street) + Count(m.state) + Count(m.postalCode)
      && avas[0] == Ava(OidCommonName, NormalizedName(m.name))
      && avas[1] == Ava(OidOrganization, m.pki)
      && avas[2] == Ava(OidOrganizationalUnit, m.gln)
      && avas[3] == Ava(OidCountry, m.country)
      && RanksIncrease(avas) && RanksWithin(avas, 0, 8)
  {
    var head := [ Ava(OidCommonName, NormalizedName(m.name)), Ava(OidOrganization, m.pki),
                  Ava(OidOrganizationalUnit, m.gln), Ava(OidCountry, m.country) ];
    var l, s, st, pc := OptionalAva(OidLocality, m.city), OptionalAva(OidStreet, m.street),
                        OptionalAva(OidState, m.state), OptionalAva(OidPostalCode, m.postalCode);
    RankOfAttributeTypes();
    assert RanksIncrease(head) && RanksWithin(head, 0, 4);
    OptionalAvaRank(OidLocality, m.city);
    OptionalAvaRank(OidStreet, m.street);
    OptionalAvaRank(OidState, m.state);
    OptionalAvaRank(OidPostalCode, m.postalCode);
    ConcatRanksIncrease(head, l, 0, 4, 5);
    ConcatRanksIncrease(head + l, s, 0, 5, 6);
    ConcatRanksIncrease(head + l + s, st, 0, 6, 7);
    ConcatRanksIncrease(head + l + s + st, pc, 0, 7, 8);
    assert SubjectAttributes(m) == head + l + s + st + pc;
  }

  /** RDN.containsAttributeType. */
  predicate HasType(rdn: Rdn, attrType: Oid) {
    exists k | 0 <= k < |rdn.avas| :: rdn.avas[k].attrType == attrType
  }

  /** extractFromCertificate: the first value of the first RDN that holds
      the attribute type, or nothing. For a multi-valued RDN that first
      value may belong to another attribute type of the same RDN. */
  function ExtractFromCertificate(subject: Name, attrType: Oid): (r: Option<string>)
    ensures r.None? <==> forall i | 0 <= i < |subject| :: !HasType(subject[i], attrType)
    ensures r.Some? ==> exists i | 0 <= i < |subject| ::
      && HasType(subject[i], attrType)
      && (forall j | 0 <= j < i :: !HasType(subject[j], attrType))
      && r.value == subject[i].avas[0].value
    decreases |subject|
  {
    if subject == [] then None
    else if HasType(subject[0], attrType) then Some(subject[0].avas[0].value)
    else
      var r := ExtractFromCertificate(subject[1..], attrType);
      assert forall i | 1 <= i < |subject| :: subject[i] == subject[1..][i - 1];
      r
  }

  /** The value of the first pair of the given type. */
  function FirstValue(avas: seq<Ava>, attrType: Oid): Option<string> {
    if avas == [] then None
    else if avas[0].attrType == attrType then Some(avas[0].value)
    else FirstValue(avas[1..], attrType)
  }

  lemma {:induction false} FirstValueAppend(a: seq<Ava>, b: seq<Ava>, attrType: Oid)
    ensures FirstValue(a + b, attrType) == if FirstValue(a, attrType).Some? then FirstValue(a, attrType) else FirstValue(b, attrType)
  {
    if a != [] {
      assert (a + b)[1..] == a[1..] + b;
      FirstValueAppend(a[1..], b, attrType);
    } else {
      assert a + b == b;
    }
  }

  /** On a name of single-valued RDNs extraction finds the first pair of the type. */
  lemma {:induction false} ExtractFromToName(avas: seq<Ava>, attrType: Oid)
    ensures ExtractFromCertificate(ToName(avas), attrType) == FirstValue(avas, attrType)
  {
    if avas != [] {
      var n := ToName(avas);
      assert n[0].avas == [avas[0]];
      if avas[0].attrType == attrType {
        assert n[0].avas[0].attrType == attrType;
      }
      assert HasType(n[0], attrType) <==> avas[0].attrType == attrType;
      assert n[1..] == ToName(avas[1..]);
      ExtractFromToName(avas[1..], attrType);
    }
  }

  /** Extraction from the built subject is a search of its attribute list. */
  lemma SubjectSearch(m: CsrMetadata, t: Oid)
    ensures ExtractFromCertificate(ToSubject(m), t) ==
      FirstValue([ Ava(OidCommonName, NormalizedName(m.name)), Ava(OidOrganization, m.pki),
                   Ava(OidOrganizationalUnit, m.gln), Ava(OidCountry, m.country) ], t)
      .Or(FirstValue(OptionalAva(OidLocality, m.city), t))
      .Or(FirstValue(OptionalAva(OidStreet, m.street), t))
      .Or(FirstValue(OptionalAva(OidState, m.state), t))
      .Or(FirstValue(OptionalAva(OidPostalCode, m.postalCode), t))
  {
    var head := [ Ava(OidCommonName, NormalizedName(m.name)), Ava(OidOrganization, m.pki),
                  Ava(OidOrganizationalUnit, m.gln), Ava(OidCountry, m.country) ];
    var l, s, st, pc := OptionalAva(OidLocality, m.city), OptionalAva(OidStreet, m.street),
                        OptionalAva(OidState, m.state), OptionalAva(OidPostalCode, m.postalCode);
    ExtractFromToName(SubjectAttributes(m), t);
    assert SubjectAttributes(m) == head + l + s + st + pc;
    FirstValueAppend(head + l + s + st, pc, t);
    FirstValueAppend(head + l + s, st, t);
    FirstValueAppend(head + l, s, t);
    FirstValueAppend(head, l, t);
  }

  lemma FirstValueOptional(attrType: Oid, value: Option<string>, t: Oid)
    ensures FirstValue(OptionalAva(attrType, value), t) == if attrType == t then value else None
  {
  }

  /** The value the subject built from the metadata holds for an attribute type. */
  function Expected(m: CsrMetadata, t: Oid): Option<string> {
    if t == OidCommonName then Some(NormalizedName(m.name))
    else if t == OidOrganization then Some(m.pki)
    else if t == OidOrganizationalUnit then Some(m.gln)
    else if t == OidCountry then Some(m.country)
    else if t == OidLocality then m.city
    else if t == OidStreet then m.street
    else if t == OidState then m.state
    else if t == OidPostalCode then m.postalCode
    else None
  }

  lemma FirstValueHead(m: CsrMetadata, t: Oid)
    ensures FirstValue([ Ava(OidCommonName, NormalizedName(m.name)), Ava(OidOrganization, m.pki),
                         Ava(OidOrganizationalUnit, m.gln), Ava(OidCountry, m.country) ], t)
      == if t == OidCommonName then Some(NormalizedName(m.name))
         else if t == OidOrganization then Some(m.pki)
         else if t == OidOrganizationalUnit then Some(m.gln)
         else if t == OidCountry then Some(m.country)
         else None
  {
    RankOfAttributeTypes();
    var h := [ Ava(OidCommonName, NormalizedName(m.name)), Ava(OidOrganization, m.pki),
               Ava(OidOrganizationalUnit, m.gln), Ava(OidCountry, m.country) ];
    var h1, h2, h3 := h[1..], h[2..], h[3..];
    assert h1[1..] == h2 && h2[1..] == h3 && h3[1..] == [];
    assert FirstValue(h3, t) == if t == OidCountry then Some(m.country) else None;
    assert FirstValue(h2, t) == if t == OidOrganizationalUnit then Some(m.gln) else FirstValue(h3, t);
    assert FirstValue(h1, t) == if t == OidOrganization then Some(m.pki) else FirstValue(h2, t);
  }

  lemma RecoverField(m: CsrMetadata, t: Oid)
    ensures ExtractFromCertificate(ToSubject(m), t) == Expected(m, t)
  {
    RankOfAttributeTypes();
    SubjectSearch(m, t);
    FirstValueHead(m, t);
    FirstValueOptional(OidLocality, m.city, t);
    FirstValueOptional(OidStreet, m.street, t);
    FirstValueOptional(OidState, m.state, t);
    FirstValueOptional(OidPostalCode, m.postalCode, t);
    var head := FirstValue([ Ava(OidCommonName, NormalizedName(m.name)), Ava(OidOrganization, m.pki),
                             Ava(OidOrganizationalUnit, m.gln), Ava(OidCountry, m.country) ], t);
    if Rank(t) < 4 {
      assert head == Expected(m, t) && head.Some?;
    } else {
      assert head == None;
    }
  }

  lemma ExpectedOfProfile(m: CsrMetadata)
    ensures Expected(m, OidCommonName) == Some(NormalizedName(m.name))
    ensures Expected(m, OidOrganization) == Some(m.pki)
    ensures Expected(m, OidOrganizationalUnit) == Some(m.gln)
    ensures Expected(m, OidCountry) == Some(m.country)
    ensures Expected(m, OidLocality) == m.city
    ensures Expected(m, OidStreet) == m.street
    ensures Expected(m, OidState) == m.state
    ensures Expected(m, OidPostalCode) == m.postalCode
  {
    RankOfAttributeTypes();
  }

  /** Each field of the metadata is found again in the subject built from it
      (the name in its normalised form). */
  lemma SubjectRecoversFields(m: CsrMetadata)
    ensures ExtractFromCertificate(ToSubject(m), OidCommonName) == Some(NormalizedName(m.name))
    ensures ExtractFromCertificate(ToSubject(m), OidOrganization) == Some(m.pki)
    ensures ExtractFromCertificate(ToSubject(m), OidOrganizationalUnit) == Some(m.gln)
    ensures ExtractFromCertificate(ToSubject(m), OidCountry) == Some(m.country)
    ensures ExtractFromCertificate(ToSubject(m), OidLocality) == m.city
    ensures ExtractFromCertificate(ToSubject(m), OidStreet) == m.street
    ensures ExtractFromCertificate(ToSubject(m), OidState) == m.state
    ensures ExtractFromCertificate(ToSubject(m), OidPostalCode) == m.postalCode
  {
    ExpectedOfProfile(m);
    RecoverField(m, OidCommonName);
    RecoverField(m, OidOrganization);
    RecoverField(m, OidOrganizationalUnit);
    RecoverField(m, OidCountry);
    RecoverField(m, OidLocality);
    RecoverField(m, OidStreet);
    RecoverField(m, OidState);
    RecoverField(m, OidPostalCode);
  }

  /** Why reverse extraction fails. */
  datatype MetadataError =
    | MissingAttribute(attrType: Oid)   // InvalidParameterException
    | MissingSanExtension               // NullPointerException: no SAN extension
    | MissingSanEntry(tag: nat)         // NoSuchElementException from Optional.get
    | InvalidUri(text: string)          // IllegalArgumentException from URI.create

  /** The name of the first general name with the tag. */
  function FirstWithTag(names: seq<GeneralName>, tag: nat): (r: Option<string>)
    ensures r.None? <==> forall i | 0 <= i < |names| :: names[i].tag != tag
    ensures r.Some? ==> exists i | 0 <= i < |names| ::
      names[i].tag == tag && names[i].name == r.value && forall j | 0 <= j < i :: names[j].tag != tag
    decreases |names|
  {
    if names == [] then None
    else if names[0].tag == tag then Some(names[0].name)
    else
      var r := FirstWithTag(names[1..], tag);
      assert forall i | 1 <= i < |names| :: names[i] == names[1..][i - 1];
      r
  }

  /** extractSAN: a certificate without the extension, or without a name of
      the tag, fails; otherwise the first name with the tag. */
  function ExtractSan(sans: Option<seq<GeneralName>>, tag: nat): (r: Result<string, MetadataError>)
    ensures sans.None? ==> r == Failure(MissingSanExtension)
    ensures sans.Some? && (forall i | 0 <= i < |sans.value| :: sans.value[i].tag != tag) ==>
      r == Failure(MissingSanEntry(tag))
    ensures r.Success? ==> sans.Some? && exists i | 0 <= i < |sans.value| ::
      && sans.value[i] == GeneralName(tag, r.value)
      && forall j | 0 <= j < i :: sans.value[j].tag != tag
  {
    match sans
    case None => Failure(MissingSanExtension)
    case Some(names) =>
      match FirstWithTag(names, tag)
      case None => Failure(MissingSanEntry(tag))
      case Some(n) => Success(n)
  }

  /** CSRMetadata.fromCertificate, in the source's evaluation order: CN, OU,
      the SAN URI (parsed by URI.create, given as parseUri), the SAN e-mail,
      O, C, then the optional attributes. */
  function FromCertificate(cert: Certificate, parseUri: string -> Option<Uri>)
    : (r: Result<CsrMetadata, MetadataError>)
    ensures r.Success? ==>
      && ExtractFromCertificate(cert.subject, OidCommonName) == Some(r.value.name)
      && ExtractFromCertificate(cert.subject, OidOrganizationalUnit) == Some(r.value.gln)
      && ExtractFromCertificate(cert.subject, OidOrganization) == Some(r.value.pki)
      && ExtractFromCertificate(cert.subject, OidCountry) == Some(r.value.country)
      && ExtractSan(cert.subjectAltNames, TagUri).Success?
      && parseUri(ExtractSan(cert.subjectAltNames, TagUri).value) == Some(r.value.uri)
      && ExtractSan(cert.subjectAltNames, TagRfc822Name) == Success(r.value.email)
      && r.value.city == ExtractFromCertificate(cert.subject, OidLocality)
      && r.value.street == ExtractFromCertificate(cert.subject, OidStreet)
      && r.value.state == ExtractFromCertificate(cert.subject, OidState)
      && r.value.postalCode == ExtractFromCertificate(cert.subject, OidPostalCode)
  {
    var name := ExtractFromCertificate(cert.subject, OidCommonName);
    if name.None? then Failure(MissingAttribute(OidCommonName)) else
    var gln := ExtractFromCertificate(cert.subject, OidOrganizationalUnit);
    if gln.None? then Failure(MissingAttribute(OidOrganizationalUnit)) else
    var uriText := ExtractSan(cert.subjectAltNames, TagUri);
    if uriText.Failure? then Failure(uriText.error) else
    var uri := parseUri(uriText.value);
    if uri.None? then Failure(InvalidUri(uriText.value)) else
    var email := ExtractSan(cert.subjectAltNames, TagRfc822Name);
    if email.Failure? then Failure(email.error) else
    var pki := ExtractFromCertificate(cert.subject, OidOrganization);
    if pki.None? then Failure(MissingAttribute(OidOrganization)) else
    var country := ExtractFromCertificate(cert.subject, OidCountry);
    if country.None? then Failure(MissingAttribute(OidCountry)) else
    Success(CsrMetadata(
      name.value, gln.value, uri.value, email.value, pki.value, country.value,
      ExtractFromCertificate(cert.subject, OidState),
      ExtractFromCertificate(cert.subject, OidLocality),
      ExtractFromCertificate(cert.subject, OidPostalCode),
      ExtractFromCertificate(cert.subject, OidStreet)))
  }

  /** A subject without CN or OU fails with that attribute named; one
      without O or C fails too (possibly earlier, on the SAN). */
  lemma MissingRequiredAttributeFails(cert: Certificate, parseUri: string -> Option<Uri>)
    requires || ExtractFromCertificate(cert.subject, OidCommonName).None?
             || ExtractFromCertificate(cert.subject, OidOrganizationalUnit).None?
             || ExtractFromCertificate(cert.subject, OidOrganization).None?
             || ExtractFromCertificate(cert.subject, OidCountry).None?
    ensures FromCertificate(cert, parseUri).Failure?
    ensures ExtractFromCertificate(cert.subject, OidCommonName).None? ==>
      FromCertificate(cert, parseUri) == Failure(MissingAttribute(OidCommonName))
  {
  }

  /** Round trip: a certificate whose subject was built from some metadata,
      and whose SAN lists the metadata's URI and e-mail first among their
      kinds, gives back that metadata, with the name normalised. */
  lemma FromCertificateRoundTrip(m: CsrMetadata, cert: Certificate, parseUri: string -> Option<Uri>)
    requires cert.subject == ToSubject(m)
    requires cert.subjectAltNames.Some?
    requires FirstWithTag(cert.subjectAltNames.value, TagUri) == Some(m.uri.text)
    requires FirstWithTag(cert.subjectAltNames.value, TagRfc822Name) == Some(m.email)
    requires parseUri(m.uri.text) == Some(m.uri)
    ensures FromCertificate(cert, parseUri) == Success(m.(name := NormalizedName(m.name)))
  {
    SubjectRecoversFields(m);
  }

  /** So a renewal asks for the very subject of the certificate it renews. */
  lemma RenewedSubjectUnchanged(m: CsrMetadata, cert: Certificate, parseUri: string -> Option<Uri>)
    requires cert.subject == ToSubject(m)
    requires cert.subjectAltNames.Some?
    requires FirstWithTag(cert.subjectAltNames.value, TagUri) == Some(m.uri.text)
    requires FirstWithTag(cert.subjectAltNames.value, TagRfc822Name) == Some(m.email)
    requires parseUri(m.uri.text) == Some(m.uri)
    ensures FromCertificate(cert, parseUri).Success?
    ensures ToSubject(FromCertificate(cert, parseUri).value) == cert.subject
  {
    FromCertificateRoundTrip(m, cert, parseUri);
    NormalizedNameIdempotent(m.name);
    assert SubjectAttributes(m.(name := NormalizedName(m.name))) == SubjectAttributes(m);
  }
}
