/** X509Util.validateCertificateChain: a chain is complete when it has at
    least two certificates, each certificate's issuer is the subject of the
    next one, and the last one is self-issued. The check stops at the first
    defect it meets. */
module X509Util {
  import opened Wrappers
  import opened Pkix

  const MinChainLength: nat := 2

  /** Certificate i is issued by the subject of certificate i + 1. */
  predicate LinkHolds(chain: seq<Certificate>, i: nat)
    requires i + 1 < |chain|
  {
    chain[i].issuer == chain[i + 1].subject
  }

  predicate SelfIssued(cert: Certificate) {
    cert.subject == cert.issuer
  }

  /** The reference definition of a complete trust chain. */
  predicate CompleteChain(chain: seq<Certificate>) {
    && |chain| >= MinChainLength
    && (forall i: nat | i + 1 < |chain| :: LinkHolds(chain, i))
    && SelfIssued(chain[|chain| - 1])
  }

  /** The first position whose link to the next certificate is broken. */
  function FirstBrokenLink(chain: seq<Certificate>, from: nat): (r: Option<nat>)
    ensures r.None? <==> forall i: nat | from <= i && i + 1 < |chain| :: LinkHolds(chain, i)
    ensures r.Some? ==>
      && from <= r.value && r.value + 1 < |chain|
      && !LinkHolds(chain, r.value)
      && forall i: nat | from <= i < r.value :: LinkHolds(chain, i)
    decreases |chain| - from
  {
    if from + 1 >= |chain| then None
    else if !LinkHolds(chain, from) then Some(from)
    else FirstBrokenLink(chain, from + 1)
  }

  /** InvalidCertificateChain, by the defect its message reports. */
  datatype InvalidCertificateChain =
    | ChainTooShort(length: nat)
    | NotSignedBy(subject: Name, nextSubject: Name)
    | DoesNotEndWithRoot(rootSubject: Name)

  /** The exception validation throws, if any. */
  function ChainError(chain: seq<Certificate>): (r: Option<InvalidCertificateChain>)
    ensures r.None? <==> CompleteChain(chain)
    ensures |chain| < MinChainLength ==> r == Some(ChainTooShort(|chain|))
  {
    if |chain| < MinChainLength then Some(ChainTooShort(|chain|))
    else match FirstBrokenLink(chain, 0)
      case Some(i) => Some(NotSignedBy(chain[i].subject, chain[i + 1].subject))
      case None =>
        var root := chain[|chain| - 1];
        if SelfIssued(root) then None else Some(DoesNotEndWithRoot(root.subject))
  }

  /** validateCertificateChain: returns normally (None) or with the exception
      it throws. */
  method ValidateCertificateChain(chain: seq<Certificate>) returns (err: Option<InvalidCertificateChain>)
    ensures err == ChainError(chain)
  {
    if |chain| < MinChainLength {
      return Some(ChainTooShort(|chain|));
    }
    for idx := 0 to |chain| - 1
      invariant forall i: nat | i < idx :: LinkHolds(chain, i)
    {
      if chain[idx].issuer != chain[idx + 1].subject {
        FirstDefectReported(chain, idx);
        return Some(NotSignedBy(chain[idx].subject, chain[idx + 1].subject));
      }
    }
    var root := chain[|chain| - 1];
    if root.subject != root.issuer {
      return Some(DoesNotEndWithRoot(root.subject));
    }
    return None;
  }

  /** The error names the first broken link even when later links are broken too. */
  lemma FirstDefectReported(chain: seq<Certificate>, i: nat)
    requires |chain| >= MinChainLength && i + 1 < |chain|
    requires !LinkHolds(chain, i)
    requires forall j: nat | j < i :: LinkHolds(chain, j)
    ensures ChainError(chain) == Some(NotSignedBy(chain[i].subject, chain[i + 1].subject))
  {
    var r := FirstBrokenLink(chain, 0);
    assert r.Some?;
    assert r.value == i by {
      if r.value < i { } else if r.value > i { }
    }
  }

  /** A leaf issued by a self-issued root forms a complete chain. */
  lemma LeafAndRootComplete(leaf: Certificate, root: Certificate)
    requires leaf.issuer == root.subject && root.subject == root.issuer
    ensures ChainError([leaf, root]).None?
  {
    assert LinkHolds([leaf, root], 0);
  }

  /** A single certificate, even a self-issued one, is never a complete chain. */
  lemma SingleCertificateIncomplete(cert: Certificate)
    ensures ChainError([cert]) == Some(ChainTooShort(1))
  {
  }
}
