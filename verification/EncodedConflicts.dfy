/** Conflict resolution on what is decoded from a composed request. */
module EncodedConflicts {
  import opened Common
  import opened MutationEncoding
  import opened ConflictResolution

  function SourceMetadata(m: DocMetadata): Metadata {
    Metadata(m.revSeq, m.cas, m.flags, m.expiry, m.deletion, m.dataType as bv8)
  }

  predicate IsDeletion(e: Event) { e.opcode.UprDeletion? || e.opcode.UprExpiration? }

  /** Exactly when the lost deletion flag changes the verdict: for a deletion or expiration of the same version as the
      target's document and with greater details, which then wins although it should not. */
  lemma VerdictDiffersIff(e: Event, lww: bool, recycled: Bytes, target: Metadata, mode: Mode, x: bool)
    requires IsMutation(e.opcode) && Fits(e)
    ensures |Extras(e, lww, recycled)| >= 16
    ensures var decoded := SourceMetadata(DecodeSetMetaReq(Composed(e, lww, recycled)));
            var right := decoded.(deletion := IsDeletion(e));
            && (Wins(mode, x, decoded, target) != Wins(mode, x, right, target) <==>
                IsDeletion(e) && Version(mode, decoded) == Version(mode, target) &&
                LexGreater(Details(x, decoded), Details(x, target)))
            && (Wins(mode, x, right, target) ==> Wins(mode, x, decoded, target))
  {
    DecodeComposed(e, lww, recycled);
    var decoded := SourceMetadata(DecodeSetMetaReq(Composed(e, lww, recycled)));
    var right := decoded.(deletion := IsDeletion(e));
    WinsIsLexicographic(mode, x, decoded, target);
    WinsIsLexicographic(mode, x, right, target);
    VersionGreater(Version(mode, decoded), Version(mode, target));
  }

  lemma VersionGreater(a: seq<nat>, b: seq<nat>)
    requires |a| == |b| == 2
    ensures LexGreater(a, b) ==> a != b
  {
    LexTwo(a, b);
  }
}
