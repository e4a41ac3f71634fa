/** Triple: one value per key of the certificate triple. */
module Triples {

  datatype Triple<T> = Triple(encryption: T, signature: T, transport: T) {

    /** stream(): the components in the order encryption, signature, transport. */
    function Stream(): (s: seq<T>)
      ensures |s| == 3
      ensures encryption in s && signature in s && transport in s
      ensures forall x | x in s :: x == encryption || x == signature || x == transport
    {
      [encryption, signature, transport]
    }
  }

  /** Rebuilds a triple from its stream. */
  function FromStream<T>(s: seq<T>): (t: Triple<T>)
    requires |s| == 3
    ensures t.Stream() == s
  {
    Triple(s[0], s[1], s[2])
  }

  /** stream() loses nothing: it is inverted by FromStream, so two triples
      with the same stream are equal, and equal components are kept, not
      merged. */
  lemma StreamRoundTrip<T>(t: Triple<T>)
    ensures FromStream(t.Stream()) == t
    ensures t.Stream()[0] == t.encryption && t.Stream()[1] == t.signature && t.Stream()[2] == t.transport
  {
  }

  lemma StreamInjective<T>(t1: Triple<T>, t2: Triple<T>)
    requires t1.Stream() == t2.Stream()
    ensures t1 == t2
  {
    StreamRoundTrip(t1);
    StreamRoundTrip(t2);
  }
}
