/**
 Source-side conflict resolution: does an outgoing mutation win over the document
 on the target? The order it induces, replays, and what depends on delivery order.
 */
module ConflictResolution {

  datatype Metadata = Metadata(revSeq: nat, cas: nat, flags: nat, expiry: nat, deletion: bool, dataType: bv8)

  datatype Mode = RevId | LastWriteWins

  const XATTR_BIT: bv8 := 0x04

  predicate HasXattr(dataType: bv8) { dataType & XATTR_BIT > 0 }

  /** Extended attributes are the third bit of the data type. */
  lemma XattrIsThirdBit(dataType: bv8)
    ensures HasXattr(dataType) <==> (dataType >> 2) & 1 == 1
  {
  }

  predicate ResolveByXattr(source: Metadata, target: Metadata, xattrEnabled: bool) {
    if xattrEnabled then HasXattr(source.dataType) && !HasXattr(target.dataType) else false
  }

  /** The end of both resolvers, reached when revSeq and cas are equal. */
  predicate ResolveTie(source: Metadata, target: Metadata, xattrEnabled: bool) {
    if source.deletion || target.expiry > source.expiry then false
    else if target.expiry == source.expiry then
      if target.flags > source.flags then false
      else if target.flags == source.flags then ResolveByXattr(source, target, xattrEnabled)
      else true
    else true
  }

  predicate ResolveByCas(source: Metadata, target: Metadata, xattrEnabled: bool) {
    if target.cas > source.cas then false
    else if target.cas == source.cas then
      if target.revSeq > source.revSeq then false
      else if target.revSeq == source.revSeq then ResolveTie(source, target, xattrEnabled)
      else true
    else true
  }

  predicate ResolveByRevSeq(source: Metadata, target: Metadata, xattrEnabled: bool) {
    if target.revSeq > source.revSeq then false
    else if target.revSeq == source.revSeq then
      if target.cas > source.cas then false
      else if target.cas == source.cas then ResolveTie(source, target, xattrEnabled)
      else true
    else true
  }

  /** True if the source mutation wins. */
  predicate Wins(mode: Mode, xattrEnabled: bool, source: Metadata, target: Metadata) {
    if mode == LastWriteWins then ResolveByCas(source, target, xattrEnabled)
    else ResolveByRevSeq(source, target, xattrEnabled)
  }

  // -------------------------------------------------------------------------
  // A strict order

  predicate LexGreater(a: seq<nat>, b: seq<nat>)
    requires |a| == |b|
  {
    a != [] && (a[0] > b[0] || (a[0] == b[0] && LexGreater(a[1..], b[1..])))
  }

  function Version(mode: Mode, m: Metadata): seq<nat> {
    if mode == LastWriteWins then [m.cas, m.revSeq] else [m.revSeq, m.cas]
  }

  function Details(xattrEnabled: bool, m: Metadata): seq<nat> {
    [m.expiry, m.flags, if xattrEnabled && HasXattr(m.dataType) then 1 else 0]
  }

  /** The greater version wins; among equal versions a deletion never does, and otherwise the greater
      expiry, flags and presence of extended attributes, in this order. */
  lemma WinsIsLexicographic(mode: Mode, x: bool, a: Metadata, b: Metadata)
    ensures Wins(mode, x, a, b) <==>
            || LexGreater(Version(mode, a), Version(mode, b))
            || (Version(mode, a) == Version(mode, b) && !a.deletion && LexGreater(Details(x, a), Details(x, b)))
  {
    LexTwo(Version(mode, a), Version(mode, b));
    LexThree(Details(x, a), Details(x, b));
  }

  lemma LexTwo(a: seq<nat>, b: seq<nat>)
    requires |a| == |b| == 2
    ensures LexGreater(a, b) <==> a[0] > b[0] || (a[0] == b[0] && a[1] > b[1])
  {
    assert LexGreater(a[1..], b[1..]) <==> a[1] > b[1];
  }

  lemma LexThree(a: seq<nat>, b: seq<nat>)
    requires |a| == |b| == 3
    ensures LexGreater(a, b) <==> a[0] > b[0] || (a[0] == b[0] && (a[1] > b[1] || (a[1] == b[1] && a[2] > b[2])))
  {
    LexTwo(a[1..], b[1..]);
  }

  lemma WinsIsStrictOrder(mode: Mode, x: bool, a: Metadata, b: Metadata, c: Metadata)
    ensures !Wins(mode, x, a, a)
    ensures Wins(mode, x, a, b) ==> !Wins(mode, x, b, a)
    ensures Wins(mode, x, a, b) && Wins(mode, x, b, c) ==> Wins(mode, x, a, c)
  {
  }

  /** Mutations that differ in revSeq or cas are always ordered, one way or the other. */
  lemma DistinctVersionsAreOrdered(mode: Mode, x: bool, a: Metadata, b: Metadata)
    requires a.revSeq != b.revSeq || a.cas != b.cas
    ensures Wins(mode, x, a, b) <==> !Wins(mode, x, b, a)
  {
  }

  // -------------------------------------------------------------------------
  // Applying mutations to a document

  function Apply(mode: Mode, x: bool, doc: Metadata, m: Metadata): Metadata {
    if Wins(mode, x, m, doc) then m else doc
  }

  /** The document after a sequence of deliveries. */
  function Winner(mode: Mode, x: bool, doc: Metadata, ms: seq<Metadata>): Metadata {
    if ms == [] then doc
    else Apply(mode, x, Winner(mode, x, doc, ms[..|ms| - 1]), ms[|ms| - 1])
  }

  /** The first document on an empty target is simply stored. */
  function Delivered(mode: Mode, x: bool, ms: seq<Metadata>): Metadata
    requires ms != []
  {
    Winner(mode, x, ms[0], ms[1..])
  }

  /** The winner is one of the documents seen, and none of them beats it. */
  lemma {:induction false} WinnerIsUnbeaten(mode: Mode, x: bool, doc: Metadata, ms: seq<Metadata>)
    ensures Winner(mode, x, doc, ms) == doc || Winner(mode, x, doc, ms) in ms
    ensures !Wins(mode, x, doc, Winner(mode, x, doc, ms))
    ensures forall m :: m in ms ==> !Wins(mode, x, m, Winner(mode, x, doc, ms))
  {
    if ms == [] {
      WinsIsStrictOrder(mode, x, doc, doc, doc);
    } else {
      var front, last := ms[..|ms| - 1], ms[|ms| - 1];
      var w := Winner(mode, x, doc, front);
      var w' := Apply(mode, x, w, last);
      WinnerIsUnbeaten(mode, x, doc, front);
      forall m | m in ms || m == doc ensures !Wins(mode, x, m, w') {
        assert m in front || m == last || m == doc;
        WinsIsStrictOrder(mode, x, m, w', w);
        WinsIsStrictOrder(mode, x, last, w, w);
      }
    }
  }

  lemma {:induction false} WinnerConcat(mode: Mode, x: bool, doc: Metadata, ms: seq<Metadata>, ns: seq<Metadata>)
    ensures Winner(mode, x, doc, ms + ns) == Winner(mode, x, Winner(mode, x, doc, ms), ns)
  {
    if ns == [] {
      assert ms + ns == ms;
    } else {
      assert (ms + ns)[..|ms + ns| - 1] == ms + ns[..|ns| - 1];
      WinnerConcat(mode, x, doc, ms, ns[..|ns| - 1]);
    }
  }

  lemma {:induction false} UnbeatenStays(mode: Mode, x: bool, doc: Metadata, ms: seq<Metadata>)
    requires forall m :: m in ms ==> !Wins(mode, x, m, doc)
    ensures Winner(mode, x, doc, ms) == doc
  {
    if ms != [] { UnbeatenStays(mode, x, doc, ms[..|ms| - 1]); }
  }

  /** Redelivering mutations that were already delivered, in any order and number, changes nothing. */
  lemma ReplayIsHarmless(mode: Mode, x: bool, doc: Metadata, ms: seq<Metadata>, replay: seq<Metadata>)
    requires forall m :: m in replay ==> m in ms || m == doc
    ensures Winner(mode, x, doc, ms + replay) == Winner(mode, x, doc, ms)
  {
    WinnerIsUnbeaten(mode, x, doc, ms);
    WinnerConcat(mode, x, doc, ms, replay);
    UnbeatenStays(mode, x, Winner(mode, x, doc, ms), replay);
  }

  // -------------------------------------------------------------------------
  // When the delivery order does not matter

  predicate Unbeaten(mode: Mode, x: bool, m: Metadata, ms: seq<Metadata>) {
    m in ms && forall n :: n in ms ==> !Wins(mode, x, n, m)
  }

  ghost predicate OrderIndependent(mode: Mode, x: bool, ms: seq<Metadata>) {
    forall p, q :: p != [] && q != [] && multiset(p) == multiset(q) == multiset(ms) ==>
      Delivered(mode, x, p) == Delivered(mode, x, q)
  }

  ghost predicate OneUnbeaten(mode: Mode, x: bool, ms: seq<Metadata>) {
    forall a, b :: Unbeaten(mode, x, a, ms) && Unbeaten(mode, x, b, ms) ==> a == b
  }

  lemma DeliveredIsUnbeaten(mode: Mode, x: bool, p: seq<Metadata>, ms: seq<Metadata>)
    requires p != [] && multiset(p) == multiset(ms)
    ensures Unbeaten(mode, x, Delivered(mode, x, p), ms)
  {
    WinnerIsUnbeaten(mode, x, p[0], p[1..]);
    assert p == [p[0]] + p[1..];
    forall n ensures n in ms <==> n in p { assert n in multiset(p) <==> n in multiset(ms); }
  }

  /** Any unbeaten mutation wins if it is delivered first. */
  lemma UnbeatenFirst(mode: Mode, x: bool, a: Metadata, ms: seq<Metadata>) returns (p: seq<Metadata>)
    requires Unbeaten(mode, x, a, ms)
    ensures p != [] && multiset(p) == multiset(ms) && Delivered(mode, x, p) == a
  {
    var i :| 0 <= i < |ms| && ms[i] == a;
    var rest := ms[..i] + ms[i + 1..];
    p := [a] + rest;
    assert ms == ms[..i] + [a] + ms[i + 1..];
    assert p[1..] == rest;
    UnbeatenStays(mode, x, a, rest);
  }

  /** Every delivery order ends with the same document if and only if only one document is unbeaten. */
  lemma OrderIndependentIff(mode: Mode, x: bool, ms: seq<Metadata>)
    ensures OrderIndependent(mode, x, ms) <==> OneUnbeaten(mode, x, ms)
  {
    if OneUnbeaten(mode, x, ms) {
      forall p, q | p != [] && q != [] && multiset(p) == multiset(q) == multiset(ms)
        ensures Delivered(mode, x, p) == Delivered(mode, x, q)
      {
        DeliveredIsUnbeaten(mode, x, p, ms);
        DeliveredIsUnbeaten(mode, x, q, ms);
      }
    }
    if OrderIndependent(mode, x, ms) {
      forall a, b | Unbeaten(mode, x, a, ms) && Unbeaten(mode, x, b, ms) ensures a == b {
        var p := UnbeatenFirst(mode, x, a, ms);
        var q := UnbeatenFirst(mode, x, b, ms);
      }
    }
  }

  /** With pairwise distinct (revSeq, cas) the winner is the same for every delivery order. */
  lemma DistinctVersionsConverge(mode: Mode, x: bool, ms: seq<Metadata>)
    requires forall a, b :: a in ms && b in ms && a != b ==> a.revSeq != b.revSeq || a.cas != b.cas
    ensures OrderIndependent(mode, x, ms)
  {
    forall a, b | Unbeaten(mode, x, a, ms) && Unbeaten(mode, x, b, ms) ensures a == b {
      if a != b { DistinctVersionsAreOrdered(mode, x, a, b); }
    }
    OrderIndependentIff(mode, x, ms);
  }

  /** A deletion and a mutation with the same revSeq, cas, expiry and flags end differently in the two orders. */
  lemma EqualVersionsDiverge(mode: Mode, x: bool, m: Metadata)
    requires !m.deletion
    ensures !OrderIndependent(mode, x, [m, m.(deletion := true)])
  {
    var d := m.(deletion := true);
    var p, q := [m, d], [d, m];
    assert multiset(p) == multiset(q);
    assert p[1..] == [d] && q[1..] == [m];
    assert Winner(mode, x, m, [d]) == Apply(mode, x, Winner(mode, x, m, []), d);
    assert Winner(mode, x, d, [m]) == Apply(mode, x, Winner(mode, x, d, []), m);
    assert Delivered(mode, x, p) != Delivered(mode, x, q);
  }
}
