/** Renew: the request for renewal. The certificates of the previous
    certificate file and of the trust-chain files are merged into one
    insertion-ordered chain without duplicates; an incomplete chain is only
    warned about; the subject metadata is read back from the previous
    certificate; the initial request collection is signed by the previous
    private key and wrapped with the renewal flag. */
module Renew {
  import opened Wrappers
  import opened Pkix
  import opened KeyTypes
  import opened Triples
  import opened Metadata
  import opened Crmf
  import opened Cms
  import opened PemObjects
  import opened CsrUtil
  import opened BaseCommand
  import opened X509Util
  import KeyPairUtil
  import RenewalUtil
  import Initial

  /** The minimum length of a complete trust chain, as Renew declares it. */
  const MinTrustChainLength: nat := 2

  // ---------------------------------------------------------------------
  // Insertion-ordered de-duplication (a LinkedHashSet filled in order)
  // ---------------------------------------------------------------------

  /** The insertion-ordered set acc after adding the elements of s in order:
      an element already present is not added again. */
  function AddAll<T(==)>(acc: seq<T>, s: seq<T>): seq<T>
    decreases |s|
  {
    if |s| == 0 then acc
    else AddAll(if s[0] in acc then acc else acc + [s[0]], s[1..])
  }

  /** The elements of s, in first-seen order, each once. */
  function Dedup<T(==)>(s: seq<T>): seq<T> {
    AddAll([], s)
  }

  predicate NoDuplicates<T(==)>(s: seq<T>) {
    forall i, j | 0 <= i < j < |s| :: s[i] != s[j]
  }

  /** Adding a concatenation is adding its parts one after the other. */
  lemma {:induction false} AddAllAppend<T>(acc: seq<T>, a: seq<T>, b: seq<T>)
    ensures AddAll(acc, a + b) == AddAll(AddAll(acc, a), b)
    decreases |a|
  {
    if |a| == 0 {
      assert a + b == b;
    } else {
      var acc' := if a[0] in acc then acc else acc + [a[0]];
      assert (a + b)[0] == a[0];
      assert (a + b)[1..] == a[1..] + b;
      AddAllAppend(acc', a[1..], b);
    }
  }

  /** The set holds exactly what it held and what was added. */
  lemma {:induction false} AddAllMembers<T>(acc: seq<T>, s: seq<T>, x: T)
    ensures x in AddAll(acc, s) <==> x in acc || x in s
    decreases |s|
  {
    if |s| > 0 {
      var acc' := if s[0] in acc then acc else acc + [s[0]];
      AddAllMembers(acc', s[1..], x);
      assert s == [s[0]] + s[1..];
    }
  }

  /** Adding never reorders or drops what the set already held. */
  lemma {:induction false} AddAllExtends<T>(acc: seq<T>, s: seq<T>)
    ensures acc <= AddAll(acc, s)
    decreases |s|
  {
    if |s| > 0 {
      var acc' := if s[0] in acc then acc else acc + [s[0]];
      AddAllExtends(acc', s[1..]);
    }
  }

  /** A set without duplicates stays without duplicates. */
  lemma {:induction false} AddAllNoDuplicates<T>(acc: seq<T>, s: seq<T>)
    requires NoDuplicates(acc)
    ensures NoDuplicates(AddAll(acc, s))
    decreases |s|
  {
    if |s| > 0 {
      var acc' := if s[0] in acc then acc else acc + [s[0]];
      assert NoDuplicates(acc');
      AddAllNoDuplicates(acc', s[1..]);
    }
  }

  /** Adding an element that is already present changes nothing. */
  lemma AddPresent<T>(acc: seq<T>, x: T)
    requires x in acc
    ensures AddAll(acc, [x]) == acc
  {
    assert [x][1..] == [];
  }

  /** Adding the de-duplicated elements of b is adding b itself. */
  lemma {:induction false} AddAllDeduplicated<T>(acc: seq<T>, b: seq<T>)
    ensures AddAll(acc, Dedup(b)) == AddAll(acc, b)
    decreases |b|
  {
    if |b| > 0 {
      var init, x := b[..|b| - 1], b[|b| - 1];
      assert b == init + [x];
      AddAllAppend([], init, [x]);
      AddAllAppend(acc, init, [x]);
      AddAllDeduplicated(acc, init);
      AddAllMembers([], init, x);
      AddAllMembers(acc, init, x);
      if x in init {
        AddPresent(Dedup(init), x);
        AddPresent(AddAll(acc, init), x);
      } else {
        assert [x][1..] == [];
        AddAllAppend(acc, Dedup(init), [x]);
      }
    }
  }

  /** The result of de-duplication holds every input element, and nothing
      else, once each, and starts with the first input element. */
  lemma DedupProperties<T>(s: seq<T>)
    ensures NoDuplicates(Dedup(s))
    ensures forall x :: x in Dedup(s) <==> x in s
    ensures |s| > 0 ==> |Dedup(s)| > 0 && Dedup(s)[0] == s[0]
  {
    AddAllNoDuplicates([], s);
    forall x {
      AddAllMembers([], s, x);
    }
    if |s| > 0 {
      assert s[0] !in [] && [] + [s[0]] == [s[0]];
      assert Dedup(s) == AddAll([s[0]], s[1..]);
      AddAllExtends([s[0]], s[1..]);
    }
  }

  /** A sequence without duplicates is its own de-duplication. */
  lemma {:induction false} DedupOfDistinct<T>(acc: seq<T>, s: seq<T>)
    requires NoDuplicates(acc + s)
    ensures AddAll(acc, s) == acc + s
    decreases |s|
  {
    if |s| > 0 {
      forall k | 0 <= k < |acc|
        ensures acc[k] != s[0]
      {
        assert (acc + s)[k] == acc[k] && (acc + s)[|acc|] == s[0];
      }
      assert acc + s == (acc + [s[0]]) + s[1..];
      DedupOfDistinct(acc + [s[0]], s[1..]);
    }
  }

  /** De-duplicating either operand first does not change the outcome. */
  lemma DedupAbsorbs<T>(a: seq<T>, b: seq<T>)
    ensures Dedup(Dedup(a) + b) == Dedup(a + b)
    ensures Dedup(a + Dedup(b)) == Dedup(a + b)
  {
    AddAllAppend([], Dedup(a), b);
    AddAllDeduplicated([], a);
    AddAllAppend([], a, b);
    AddAllAppend([], a, Dedup(b));
    AddAllDeduplicated(AddAll([], a), b);
  }

  /** buildTrustChain: the certificates of all chains, in order, each added
      to the insertion-ordered set unless it is already there. */
  method BuildTrustChain(chains: seq<seq<Certificate>>) returns (r: seq<Certificate>)
    ensures r == Dedup(Flatten(chains))
  {
    r := [];
    for i := 0 to |chains|
      invariant r == Dedup(Flatten(chains[..i]))
    {
      var chain := chains[i];
      for j := 0 to |chain|
        invariant r == AddAll(Dedup(Flatten(chains[..i])), chain[..j])
      {
        AddAllAppend(Dedup(Flatten(chains[..i])), chain[..j], [chain[j]]);
        assert chain[..j + 1] == chain[..j] + [chain[j]];
        assert [chain[j]][1..] == [];
        if chain[j] !in r {
          r := r + [chain[j]];
        }
      }
      assert chain[..|chain|] == chain;
      FlattenSnoc(chains, i);
      AddAllAppend([], Flatten(chains[..i]), chain);
      AddAllDeduplicated([], Flatten(chains[..i]));
      AddAllAppend([], Dedup(Flatten(chains[..i])), chain);
    }
    assert chains[..|chains|] == chains;
  }

  /** The trust chain of call: the trust-chain files folded one by one into
      the accumulated chain, then the previous certificates put in front. */
  method AccumulateChain(prevCerts: seq<Certificate>, trustChainFiles: seq<seq<Certificate>>)
    returns (allCerts: seq<Certificate>)
    ensures allCerts == Dedup(prevCerts + Flatten(trustChainFiles))
  {
    var buildChain: seq<Certificate> := [];
    for k := 0 to |trustChainFiles|
      invariant buildChain == Dedup(Flatten(trustChainFiles[..k]))
    {
      buildChain := BuildTrustChain([buildChain, trustChainFiles[k]]);
      FlattenPair(Dedup(Flatten(trustChainFiles[..k])), trustChainFiles[k]);
      DedupAbsorbs(Flatten(trustChainFiles[..k]), trustChainFiles[k]);
      FlattenSnoc(trustChainFiles, k);
    }
    assert trustChainFiles[..|trustChainFiles|] == trustChainFiles;
    allCerts := BuildTrustChain([prevCerts, buildChain]);
    FlattenPair(prevCerts, buildChain);
    DedupAbsorbs(prevCerts, Flatten(trustChainFiles));
  }

  /** The accumulated chain keeps the previous certificate first, holds every
      certificate of every file, and holds none twice. */
  lemma AccumulatedChainShape(prevCerts: seq<Certificate>, trustChainFiles: seq<seq<Certificate>>)
    requires |prevCerts| > 0
    ensures var all := Dedup(prevCerts + Flatten(trustChainFiles));
      && |all| > 0 && all[0] == prevCerts[0]
      && NoDuplicates(all)
      && (forall c :: c in all <==> c in prevCerts || c in Flatten(trustChainFiles))
  {
    DedupProperties(prevCerts + Flatten(trustChainFiles));
  }

  /** Chains that hold no certificate twice are merged by concatenation. */
  lemma DistinctChainsConcatenate(a: seq<Certificate>, b: seq<Certificate>)
    requires NoDuplicates(a + b)
    ensures Dedup(Flatten([a, b])) == a + b
  {
    FlattenPair(a, b);
    DedupOfDistinct([], a + b);
  }

  // ---------------------------------------------------------------------
  // Completeness check
  // ---------------------------------------------------------------------

  /** isCompleteTrustChain: true for a complete chain. A broken link or a
      missing root is logged (the warning, with the same defect that
      X509Util reports); a chain shorter than two is rejected silently. */
  method IsCompleteTrustChain(chain: seq<Certificate>)
    returns (complete: bool, warning: Option<InvalidCertificateChain>)
    ensures complete == CompleteChain(chain)
    ensures warning == if |chain| < MinTrustChainLength then None else ChainError(chain)
    ensures warning.Some? ==> !complete
  {
    if |chain| < MinTrustChainLength {
      return false, None;
    }
    for i := 0 to |chain| - 1
      invariant forall j: nat | j < i :: LinkHolds(chain, j)
    {
      if chain[i].issuer != chain[i + 1].subject {
        FirstDefectReported(chain, i);
        return false, Some(NotSignedBy(chain[i].subject, chain[i + 1].subject));
      }
    }
    var root := chain[|chain| - 1];
    var endsWithRoot := root.subject == root.issuer;
    if !endsWithRoot {
      warning := Some(DoesNotEndWithRoot(root.subject));
    } else {
      warning := None;
    }
    complete := endsWithRoot;
  }

  /** The boolean check and X509Util's throwing validation agree: the check
      holds exactly when validation returns normally. */
  lemma CheckersAgree(chain: seq<Certificate>)
    ensures CompleteChain(chain) <==> ChainError(chain).None?
    ensures |chain| < MinTrustChainLength ==> !CompleteChain(chain)
  {
  }

  // ---------------------------------------------------------------------
  // The renewal flow
  // ---------------------------------------------------------------------

  datatype RenewError =
    | KeyLoadFailed(keyError: KeyLoadError)
    | NoPreviousCertificate
    | MetadataFailed(metadataError: MetadataError)
    | RequestFailed(requestError: RequestError)

  /** The file written, and whether the completeness check passed (when it
      did not, the warning was logged and the renewal went on). */
  datatype Renewal = Renewal(content: ContentInfo, chainComplete: bool)

  /** The request collection of a renewal, with request ids from `id` on:
      the initial requests for the metadata read back from the previous
      certificate. */
  function RenewalRequests(id: int, prevCert: Certificate, keyPairs: Triple<KeyPair>,
                           parseUri: string -> Option<Uri>)
    : (r: Result<CertReqMessages, RenewError>)
    requires IsInt32(id)
    ensures r.Success? <==>
      && Metadata.FromCertificate(prevCert, parseUri).Success?
      && Metadata.FromCertificate(prevCert, parseUri).value.uri.host.Some?
    ensures r.Success? ==>
      r == Success(Initial.InitialRequests(id, keyPairs, Metadata.FromCertificate(prevCert, parseUri).value).value)
  {
    var md := Metadata.FromCertificate(prevCert, parseUri);
    if md.Failure? then Failure(MetadataFailed(md.error))
    else
      var inner := Initial.InitialRequests(id, keyPairs, md.value);
      if inner.Failure? then Failure(RequestFailed(inner.error)) else Success(inner.value)
  }

  /** The outcome of a renewal once every key pair is loaded, with request
      ids from `id` on: the requests for the first previous certificate's
      metadata, signed over the accumulated chain, wrapped with the renewal
      flag. */
  function RenewalOutcome(id: int, prevKey: PrivateKey, prevCerts: seq<Certificate>,
                          trustChainFiles: seq<seq<Certificate>>, keyPairs: Triple<KeyPair>,
                          parseUri: string -> Option<Uri>, certReqMsgsOid: Oid)
    : (r: Result<Renewal, RenewError>)
    requires IsInt32(id)
    ensures r.Success? <==> |prevCerts| > 0 && RenewalRequests(id, prevCerts[0], keyPairs, parseUri).Success?
    ensures r.Success? ==> r.value.content.AsContentInfoOf? && r.value.content.renewal
    ensures r.Success? ==>
      var signed := r.value.content.signed;
      && VerifiableStandalone(signed)
      && |prevCerts| > 0 && |signed.certificates| > 0 && |signed.signerInfos| == 1
      && signed.certificates == Dedup(prevCerts + Flatten(trustChainFiles))
      && signed.certificates[0] == prevCerts[0]
      && signed.eContent == Some(Encoded(RenewalRequests(id, prevCerts[0], keyPairs, parseUri).value, false))
      && signed.signerInfos[0].sid == SubjectKeyIdentifier(Sha1KeyIdentifier(prevCerts[0].publicKey))
      && signed.signerInfos[0].key == prevKey
      && r.value.chainComplete == CompleteChain(signed.certificates)
  {
    if |prevCerts| == 0 then Failure(NoPreviousCertificate)
    else
      match RenewalRequests(id, prevCerts[0], keyPairs, parseUri)
      case Failure(e) => Failure(e)
      case Success(inner) =>
        var allCerts := Dedup(prevCerts + Flatten(trustChainFiles));
        AccumulatedChainShape(prevCerts, trustChainFiles);
        Success(Renewal(AsContentInfoOf(RenewalUtil.SignedRequests(prevKey, allCerts, Encoded(inner, false), certReqMsgsOid), true),
                        CompleteChain(allCerts)))
  }

  /** How many request ids a renewal for the previous certificate takes from
      CSRUtil's counter: none when its metadata cannot be read, two when the
      TLS request fails on a URI without a host, three otherwise. */
  function RenewalIdsUsed(prevCert: Certificate, parseUri: string -> Option<Uri>): (n: nat)
    ensures n <= 3
    ensures n == 0 <==> Metadata.FromCertificate(prevCert, parseUri).Failure?
  {
    var md := Metadata.FromCertificate(prevCert, parseUri);
    if md.Failure? then 0 else if md.value.uri.host.None? then 2 else 3
  }

  /** The requests of call, built on CSRUtil's counter. */
  method GenerateRenewalRequests(counter: RequestIdCounter, prevCert: Certificate, keyPairs: Triple<KeyPair>,
                                 parseUri: string -> Option<Uri>)
    returns (r: Result<CertReqMessages, RenewError>)
    requires counter.Valid()
    modifies counter
    ensures counter.Valid()
    ensures r == RenewalRequests(old(counter.value), prevCert, keyPairs, parseUri)
    ensures counter.value == Advanced(old(counter.value), RenewalIdsUsed(prevCert, parseUri))
    ensures r.Success? ==> counter.value == Advanced(old(counter.value), 3)
  {
    var metadata := Metadata.FromCertificate(prevCert, parseUri);
    if metadata.Failure? {
      return Failure(MetadataFailed(metadata.error));
    }
    var innerCsr := Initial.GenerateCertReqMessages(counter, keyPairs, metadata.value);
    if innerCsr.Failure? {
      return Failure(RequestFailed(innerCsr.error));
    }
    r := Success(innerCsr.value);
  }

  /** The second half of call, from the accumulation of the chain on. */
  method Renewing(counter: RequestIdCounter, prevKey: PrivateKey, prevCerts: seq<Certificate>,
                  trustChainFiles: seq<seq<Certificate>>, keyPairs: Triple<KeyPair>,
                  parseUri: string -> Option<Uri>, certReqMsgsOid: Oid)
    returns (r: Result<Renewal, RenewError>)
    requires counter.Valid()
    modifies counter
    ensures counter.Valid()
    ensures r == RenewalOutcome(old(counter.value), prevKey, prevCerts, trustChainFiles, keyPairs, parseUri,
                                certReqMsgsOid)
    ensures counter.value == if |prevCerts| == 0 then old(counter.value)
                             else Advanced(old(counter.value), RenewalIdsUsed(prevCerts[0], parseUri))
  {
    var allCerts := AccumulateChain(prevCerts, trustChainFiles);
    var complete, _ := IsCompleteTrustChain(allCerts);
    if |prevCerts| == 0 {
      return Failure(NoPreviousCertificate);
    }
    var innerCsr := GenerateRenewalRequests(counter, prevCerts[0], keyPairs, parseUri);
    if innerCsr.Failure? {
      return Failure(innerCsr.error);
    }
    AccumulatedChainShape(prevCerts, trustChainFiles);
    var signed := RenewalUtil.OuterSignature(prevKey, allCerts, innerCsr.value, certReqMsgsOid);
    r := Success(Renewal(AsContentInfoOf(signed, true), complete));
  }

  /** call. The key pairs are read from their files; the certificate files
      are given as their parsed certificates. The source accumulates and
      checks the chain between loading the previous key pair and loading the
      new ones; here that step runs after all four loads, inside Renewing.
      Since certificates are inputs and the completeness check only logs,
      the order is not observable in the outcome. The key pairs are loaded
      before the previous certificate is looked at, as in the source. */
  method Call(counter: RequestIdCounter, prevKeyFile: Initial.KeyFile, prevKeyPass: Option<string>,
              prevCerts: seq<Certificate>, trustChainFiles: seq<seq<Certificate>>,
              encFile: Initial.KeyFile, sigFile: Initial.KeyFile, tlsFile: Initial.KeyFile,
              p: Passwords, tk: KeyPairUtil.Toolkit, parseUri: string -> Option<Uri>, certReqMsgsOid: Oid)
    returns (r: Result<Renewal, RenewError>)
    requires counter.Valid()
    modifies counter
    ensures counter.Valid()
    ensures var prev := KeyPairUtil.LoadResult(prevKeyFile.objects, prevKeyFile.path, prevKeyPass, tk);
            var enc := KeyPairUtil.LoadResult(encFile.objects, encFile.path, PassForType(p, ENC), tk);
            var sig := KeyPairUtil.LoadResult(sigFile.objects, sigFile.path, PassForType(p, SIG), tk);
            var tls := KeyPairUtil.LoadResult(tlsFile.objects, tlsFile.path, PassForType(p, TLS), tk);
      && (prev.Failure? ==> r == Failure(KeyLoadFailed(prev.error)))
      && (prev.Success? && enc.Failure? ==> r == Failure(KeyLoadFailed(enc.error)))
      && (prev.Success? && enc.Success? && sig.Failure? ==> r == Failure(KeyLoadFailed(sig.error)))
      && (prev.Success? && enc.Success? && sig.Success? && tls.Failure? ==> r == Failure(KeyLoadFailed(tls.error)))
      && (r.Failure? && r.error.KeyLoadFailed? ==> counter.value == old(counter.value))
      && (prev.Success? && enc.Success? && sig.Success? && tls.Success? ==>
            && r == RenewalOutcome(old(counter.value), prev.value.priv, prevCerts, trustChainFiles,
                                   Triple(enc.value, sig.value, tls.value), parseUri, certReqMsgsOid)
            && counter.value == if |prevCerts| == 0 then old(counter.value)
                                else Advanced(old(counter.value), RenewalIdsUsed(prevCerts[0], parseUri)))
  {
    var prevKp := KeyPairUtil.LoadKeyPair(prevKeyFile.objects, prevKeyFile.path, prevKeyPass, tk);
    if prevKp.Failure? {
      return Failure(KeyLoadFailed(prevKp.error));
    }
    var enc := Initial.LoadTyped(encFile, p, ENC, tk);
    if enc.Failure? {
      return Failure(KeyLoadFailed(enc.error));
    }
    var sig := Initial.LoadTyped(sigFile, p, SIG, tk);
    if sig.Failure? {
      return Failure(KeyLoadFailed(sig.error));
    }
    var tls := Initial.LoadTyped(tlsFile, p, TLS, tk);
    if tls.Failure? {
      return Failure(KeyLoadFailed(tls.error));
    }
    r := Renewing(counter, prevKp.value.priv, prevCerts, trustChainFiles, Triple(enc.value, sig.value, tls.value),
                  parseUri, certReqMsgsOid);
  }

  /** An incomplete trust chain does not stop a renewal: two renewals that
      differ only in their trust-chain files both succeed or both fail. */
  lemma IncompleteChainStillRenews(id: int, prevKey: PrivateKey, prevCerts: seq<Certificate>,
                                   files1: seq<seq<Certificate>>, files2: seq<seq<Certificate>>,
                                   keyPairs: Triple<KeyPair>, parseUri: string -> Option<Uri>, oid: Oid)
    requires IsInt32(id)
    requires RenewalOutcome(id, prevKey, prevCerts, files1, keyPairs, parseUri, oid).Success?
    ensures RenewalOutcome(id, prevKey, prevCerts, files2, keyPairs, parseUri, oid).Success?
  {
  }
}
