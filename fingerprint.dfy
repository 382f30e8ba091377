/** `Glide.Metadata`: the immutable fingerprint of a request, compared with the
    fingerprint recorded for a target to decide between reuse and replacement. */
module Fingerprint {
  import opened JavaInt
  import opened Identities

  /** The seven fields of `Metadata`. */
  datatype Metadata = Metadata(
    modelClass: ClassRef,
    modelLoaderClass: ClassRef,
    animationId: Int32,
    placeholderId: Int32,
    errorId: Int32,
    downsamplerId: string,
    transformationId: string)
  {
    /** `Metadata.equals(Object)`, for an argument that is a `Metadata` or `null`:
        the same reference is equal; `null` is not; otherwise every field is compared. */
    predicate Equals(o: Option<Metadata>)
      ensures Equals(o) <==> o == Some(this)
    {
      match o
      case None => false
      case Some(m) =>
        && animationId == m.animationId
        && errorId == m.errorId
        && placeholderId == m.placeholderId
        && downsamplerId == m.downsamplerId
        && modelClass == m.modelClass
        && modelLoaderClass == m.modelLoaderClass
        && transformationId == m.transformationId
    }

    /** The field hashes `hashCode` combines, in the order it combines them.
        `classHash` is `Class.hashCode()`, an identity hash fixed per class. */
    function FieldHashes(classHash: ClassRef -> Int32): (hs: seq<Int32>)
      ensures |hs| == 7
    {
      [classHash(modelClass), classHash(modelLoaderClass), animationId, placeholderId,
       errorId, StringHash(downsamplerId), StringHash(transformationId)]
    }

    /** `Metadata.hashCode()`, step by step in Java `int` arithmetic. */
    function HashCode(classHash: ClassRef -> Int32): Int32 {
      var result := classHash(modelClass);
      var result := Step(result, classHash(modelLoaderClass));
      var result := Step(result, animationId);
      var result := Step(result, placeholderId);
      var result := Step(result, errorId);
      var result := Step(result, StringHash(downsamplerId));
      Step(result, StringHash(transformationId))
    }
  }

  /** `equals` is reflexive and never holds against `null`. */
  lemma EqualsReflexive(a: Metadata)
    ensures a.Equals(Some(a))
    ensures !a.Equals(None)
  {
  }

  /** `equals` is symmetric and transitive. */
  lemma EqualsSymmetricTransitive(a: Metadata, b: Metadata, c: Metadata)
    ensures a.Equals(Some(b)) <==> b.Equals(Some(a))
    ensures a.Equals(Some(b)) && b.Equals(Some(c)) ==> a.Equals(Some(c))
  {
  }

  /** Equal fingerprints have equal hash codes, for any class identity hash. */
  lemma HashConsistentWithEquals(a: Metadata, b: Metadata, classHash: ClassRef -> Int32)
    requires a.Equals(Some(b))
    ensures a.HashCode(classHash) == b.HashCode(classHash)
  {
  }

  /** `hashCode` is the 31-polynomial over the seven field hashes, reduced modulo 2^32:
      `31^6*h0 + 31^5*h1 + .. + h6`, as the seven wrapping steps compute it. */
  lemma HashCodeIsPolynomial(m: Metadata, classHash: ClassRef -> Int32)
    ensures m.HashCode(classHash) == Wrap(Poly(m.FieldHashes(classHash)))
  {
    var hs := m.FieldHashes(classHash);
    FoldSnoc([], hs[0]);
    FoldSnoc(hs[..1], hs[1]);
    FoldSnoc(hs[..2], hs[2]);
    FoldSnoc(hs[..3], hs[3]);
    FoldSnoc(hs[..4], hs[4]);
    FoldSnoc(hs[..5], hs[5]);
    FoldSnoc(hs[..6], hs[6]);
    assert [] + [hs[0]] == hs[..1];
    assert hs[..1] + [hs[1]] == hs[..2];
    assert hs[..2] + [hs[2]] == hs[..3];
    assert hs[..3] + [hs[3]] == hs[..4];
    assert hs[..4] + [hs[4]] == hs[..5];
    assert hs[..5] + [hs[5]] == hs[..6];
    assert hs[..6] + [hs[6]] == hs;
    FoldIsWrappedPoly(hs);
  }
}
