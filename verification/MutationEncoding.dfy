/**
 The request that the router composes from a mutation, in a recycled object
 whose byte buffer it reuses, and what the nozzle later reads back from it.
 */
module MutationEncoding {
  import opened Common

  datatype Opcode =
    | UprMutation | UprDeletion | UprExpiration | UprSnapshot
    | TapMutation | TapDelete | SetWithMeta | DeleteWithMeta | Other(code: nat)

  datatype Event = Event(opcode: Opcode, vbucket: nat, key: Bytes, body: Bytes, dataType: byte, flags: nat, expiry: nat,
                         revSeqno: nat, cas: nat, seqno: nat, snapstart: nat, snapend: nat, snapshotType: nat)

  const FORCE_ACCEPT_WITH_META_OPS: nat := 0x02
  const IS_EXPIRATION: nat := 0x10

  // -------------------------------------------------------------------------
  // Big-endian numbers

  function Pow256(n: nat): nat { if n == 0 then 1 else 256 * Pow256(n - 1) }

  function BigEndian(v: nat, n: nat): (r: Bytes)
    ensures |r| == n
  {
    if n == 0 then [] else BigEndian(v / 256, n - 1) + [v % 256]
  }

  function Value(s: Bytes): nat {
    if s == [] then 0 else Value(s[..|s| - 1]) * 256 + s[|s| - 1]
  }

  lemma {:induction false} ValueOfBigEndian(v: nat, n: nat)
    requires v < Pow256(n)
    ensures Value(BigEndian(v, n)) == v
  {
    if n > 0 {
      ValueOfBigEndian(v / 256, n - 1);
      assert BigEndian(v, n)[..n - 1] == BigEndian(v / 256, n - 1);
    }
  }

  lemma Widths()
    ensures Pow256(4) == 0x1_0000_0000 && Pow256(8) == 0x1_0000_0000_0000_0000
  {
    assert Pow256(3) == 0x100_0000;
    assert Pow256(4) == 0x1_0000_0000;
    assert Pow256(5) == 0x100_0000_0000;
    assert Pow256(6) == 0x1_0000_0000_0000;
    assert Pow256(7) == 0x100_0000_0000_0000;
  }

  /** The fields fit the widths they have in the source. */
  predicate Fits(e: Event) {
    && e.flags < 0x1_0000_0000 && e.expiry < 0x1_0000_0000 && e.snapshotType < 0x1_0000_0000
    && e.revSeqno < 0x1_0000_0000_0000_0000 && e.cas < 0x1_0000_0000_0000_0000 && e.seqno < 0x1_0000_0000_0000_0000
    && e.snapstart < 0x1_0000_0000_0000_0000 && e.snapend < 0x1_0000_0000_0000_0000
  }

  /** Writes a number over a stretch of a buffer and nothing else. */
  method PutUint(a: array<byte>, at: nat, n: nat, v: nat)
    requires at + n <= a.Length
    modifies a
    ensures a[..] == old(a[..at]) + BigEndian(v, n) + old(a[at + n..])
  {
    var rest := v;
    var i := n;
    while i > 0
      invariant 0 <= i <= n
      invariant forall k :: 0 <= k < at + i ==> a[k] == old(a[k])
      invariant BigEndian(v, n) == BigEndian(rest, i) + a[at + i..at + n]
      invariant a[at + n..] == old(a[at + n..])
    {
      i := i - 1;
      ghost var tail := a[at + i + 1..at + n];
      a[at + i] := rest % 256;
      assert a[at + i..at + n] == [rest % 256] + tail;
      rest := rest / 256;
    }
    assert a[..at] == old(a[..at]);
    assert a[..] == a[..at] + a[at..at + n] + a[at + n..];
  }

  // -------------------------------------------------------------------------
  // Composing

  predicate IsMutation(o: Opcode) { o.UprMutation? || o.UprDeletion? || o.UprExpiration? }

  function Options(e: Event, lww: bool): nat {
    (if lww then FORCE_ACCEPT_WITH_META_OPS else 0) + (if e.opcode.UprExpiration? then IS_EXPIRATION else 0)
  }

  function Fields(e: Event): (r: Bytes)
    ensures |r| == 24
  {
    BigEndian(e.flags, 4) + BigEndian(e.expiry, 4) + BigEndian(e.revSeqno, 8) + BigEndian(e.cas, 8)
  }

  function MutationExtras(e: Event, lww: bool): Bytes {
    Fields(e) + (if Options(e, lww) > 0 then BigEndian(Options(e, lww), 4) else [])
  }

  function SnapshotExtras(e: Event): Bytes {
    BigEndian(e.seqno, 8) + BigEndian(e.snapstart, 8) + BigEndian(e.snapend, 8) + BigEndian(e.snapshotType, 4)
  }

  /** The request's extras; for other opcodes those of the recycled object stay. */
  function Extras(e: Event, lww: bool, recycled: Bytes): Bytes {
    if IsMutation(e.opcode) then MutationExtras(e, lww)
    else if e.opcode.UprSnapshot? then SnapshotExtras(e)
    else recycled
  }

  datatype Request = Request(cas: nat, opaqueId: nat, vbucket: nat, key: Bytes, body: Bytes, opcode: Opcode,
                             dataType: byte, extras: Bytes, seqno: nat, uniqueKey: Bytes)

  function UniqueKey(key: Bytes, extras: Bytes): Bytes
    requires |extras| >= 16
  {
    key + extras[8..16]
  }

  function Composed(e: Event, lww: bool, recycled: Bytes): Request
    requires |Extras(e, lww, recycled)| >= 16
  {
    var extras := Extras(e, lww, recycled);
    Request(e.cas, 0, e.vbucket, e.key, e.body, e.opcode, e.dataType, extras, e.seqno, UniqueKey(e.key, extras))
  }

  class WrappedMCRequest {
    var cas: nat
    var opaqueId: nat
    var vbucket: nat
    var key: Bytes
    var body: Bytes
    var opcode: Opcode
    var dataType: byte
    var extras: array<byte>
    var seqno: nat
    var uniqueKey: Bytes

    ghost function View(): Request
      reads this, extras
    {
      Request(cas, opaqueId, vbucket, key, body, opcode, dataType, extras[..], seqno, uniqueKey)
    }

    /** Makes sure of the buffer's size; a buffer of the right size is reused with its old bytes. */
    method Resize(size: nat)
      modifies this`extras
      ensures extras.Length == size && (extras == old(extras) || fresh(extras))
    {
      if extras.Length != size {
        extras := new byte[size](_ => 0);
      }
    }

    /** The four fields that every mutation has. */
    method WriteFields(e: Event)
      requires extras.Length >= 24
      modifies extras
      ensures extras[..24] == Fields(e)
    {
      PutUint(extras, 0, 4, e.flags);
      ghost var done := BigEndian(e.flags, 4);
      assert extras[..4] == done;
      PutUint(extras, 4, 4, e.expiry);
      done := done + BigEndian(e.expiry, 4);
      assert extras[..8] == done;
      PutUint(extras, 8, 8, e.revSeqno);
      done := done + BigEndian(e.revSeqno, 8);
      assert extras[..16] == done;
      PutUint(extras, 16, 8, e.cas);
      assert extras[..24] == done + BigEndian(e.cas, 8);
    }

    method WriteOptions(e: Event, lww: bool)
      requires extras.Length == if lww || e.opcode.UprExpiration? then 28 else 24
      modifies extras
      ensures extras[..] == old(extras[..24]) + (if Options(e, lww) > 0 then BigEndian(Options(e, lww), 4) else [])
    {
      var options := 0;
      if lww {
        options := options + FORCE_ACCEPT_WITH_META_OPS;
      }
      if e.opcode.UprExpiration? {
        options := options + IS_EXPIRATION;
      }
      if options > 0 {
        PutUint(extras, 24, 4, options);
      }
    }

    method WriteMutationExtras(e: Event, lww: bool)
      requires IsMutation(e.opcode)
      modifies this`extras, extras
      ensures extras == old(extras) || fresh(extras)
      ensures extras[..] == MutationExtras(e, lww)
    {
      Resize(if lww || e.opcode.UprExpiration? then 28 else 24);
      WriteFields(e);
      WriteOptions(e, lww);
    }

    method WriteSnapshotExtras(e: Event)
      modifies this`extras, extras
      ensures extras == old(extras) || fresh(extras)
      ensures extras[..] == SnapshotExtras(e)
    {
      Resize(28);
      PutUint(extras, 0, 8, e.seqno);
      ghost var done := BigEndian(e.seqno, 8);
      assert extras[..8] == done;
      PutUint(extras, 8, 8, e.snapstart);
      done := done + BigEndian(e.snapstart, 8);
      assert extras[..16] == done;
      PutUint(extras, 16, 8, e.snapend);
      done := done + BigEndian(e.snapend, 8);
      assert extras[..24] == done;
      PutUint(extras, 24, 4, e.snapshotType);
      assert extras[..] == done + BigEndian(e.snapshotType, 4);
    }

    /** Fills the recycled object from the event. Naming the request panics if the extras are too short,
        which can only be for an opcode that is neither a mutation nor a snapshot. */
    method ComposeMCRequest(e: Event, lww: bool) returns (panicked: bool)
      modifies this, extras
      ensures panicked <==> |Extras(e, lww, old(extras[..]))| < 16
      ensures panicked ==> !IsMutation(e.opcode) && !e.opcode.UprSnapshot?
      ensures !panicked ==> View() == Composed(e, lww, old(extras[..]))
    {
      cas, opaqueId, vbucket, key, body, opcode, dataType := e.cas, 0, e.vbucket, e.key, e.body, e.opcode, e.dataType;
      if IsMutation(e.opcode) {
        WriteMutationExtras(e, lww);
      } else if e.opcode.UprSnapshot? {
        WriteSnapshotExtras(e);
      }
      seqno := e.seqno;
      if extras.Length < 16 {
        return true;
      }
      panicked := false;
      uniqueKey := key + extras[8..16];
    }
  }

  // -------------------------------------------------------------------------
  // What composing guarantees

  /** The request for a mutation does not depend on the recycled object. */
  lemma RecycledDoesNotMatter(e: Event, lww: bool, a: Bytes, b: Bytes)
    requires IsMutation(e.opcode) || e.opcode.UprSnapshot?
    ensures |Extras(e, lww, a)| >= 16 && |Extras(e, lww, b)| >= 16 && Composed(e, lww, a) == Composed(e, lww, b)
  {
  }

  lemma MutationFields(e: Event, lww: bool)
    ensures var x := MutationExtras(e, lww);
            && |x| == (if lww || e.opcode.UprExpiration? then 28 else 24)
            && x[0..4] == BigEndian(e.flags, 4) && x[4..8] == BigEndian(e.expiry, 4)
            && x[8..16] == BigEndian(e.revSeqno, 8) && x[16..24] == BigEndian(e.cas, 8)
  {
    Slices(BigEndian(e.flags, 4), BigEndian(e.expiry, 4), BigEndian(e.revSeqno, 8), BigEndian(e.cas, 8),
           if Options(e, lww) > 0 then BigEndian(Options(e, lww), 4) else []);
  }

  lemma Slices(a: Bytes, b: Bytes, c: Bytes, d: Bytes, rest: Bytes)
    requires |a| == |b| == 4 && |c| == |d| == 8
    ensures var x := a + b + c + d + rest; x[0..4] == a && x[4..8] == b && x[8..16] == c && x[16..24] == d
  {
  }

  datatype DocMetadata = DocMetadata(key: Bytes, revSeq: nat, cas: nat, flags: nat, expiry: nat, deletion: bool,
      dataType: byte)

  function DecodeSetMetaReq(r: Request): DocMetadata
    requires |r.extras| >= 16
  {
    DocMetadata(r.key, Value(r.extras[8..16]), r.cas, Value(r.extras[0..4]), Value(r.extras[4..8]),
                r.opcode.DeleteWithMeta?, r.dataType)
  }

  /** What the nozzle reads from a composed request is what the mutation had. */
  lemma DecodeComposed(e: Event, lww: bool, recycled: Bytes)
    requires IsMutation(e.opcode) && Fits(e)
    ensures |Extras(e, lww, recycled)| >= 16
    ensures DecodeSetMetaReq(Composed(e, lww, recycled)) ==
            DocMetadata(e.key, e.revSeqno, e.cas, e.flags, e.expiry, false, e.dataType)
    ensures Value(Extras(e, lww, recycled)[16..24]) == e.cas
  {
    MutationFields(e, lww);
    Widths();
    ValueOfBigEndian(e.flags, 4);
    ValueOfBigEndian(e.expiry, 4);
    ValueOfBigEndian(e.revSeqno, 8);
    ValueOfBigEndian(e.cas, 8);
  }

  /** The event that a request carries; what the request has no place for is zero. */
  function DecodeEvent(r: Request): Event
    requires |r.extras| >= 24 && (r.opcode.UprSnapshot? ==> |r.extras| == 28)
  {
    if r.opcode.UprSnapshot? then
      Event(r.opcode, r.vbucket, r.key, r.body, r.dataType, 0, 0, 0, r.cas, Value(r.extras[0..8]),
            Value(r.extras[8..16]), Value(r.extras[16..24]), Value(r.extras[24..28]))
    else
      Event(r.opcode, r.vbucket, r.key, r.body, r.dataType, Value(r.extras[0..4]), Value(r.extras[4..8]),
            Value(r.extras[8..16]), Value(r.extras[16..24]), r.seqno, 0, 0, 0)
  }

  /** The part of an event that is replicated. */
  function Carried(e: Event): Event {
    if e.opcode.UprSnapshot? then e.(flags := 0, expiry := 0, revSeqno := 0)
    else e.(snapstart := 0, snapend := 0, snapshotType := 0)
  }

  lemma SnapshotFields(e: Event)
    ensures var x := SnapshotExtras(e);
            && |x| == 28
            && x[0..8] == BigEndian(e.seqno, 8) && x[8..16] == BigEndian(e.snapstart, 8)
            && x[16..24] == BigEndian(e.snapend, 8) && x[24..28] == BigEndian(e.snapshotType, 4)
  {
  }

  lemma DecodeMutation(e: Event, lww: bool, recycled: Bytes)
    requires IsMutation(e.opcode) && Fits(e)
    ensures |Extras(e, lww, recycled)| >= 24
    ensures DecodeEvent(Composed(e, lww, recycled)) == Carried(e)
  {
    MutationFields(e, lww);
    Widths();
    ValueOfBigEndian(e.flags, 4);
    ValueOfBigEndian(e.expiry, 4);
    ValueOfBigEndian(e.revSeqno, 8);
    ValueOfBigEndian(e.cas, 8);
  }

  lemma DecodeSnapshot(e: Event, lww: bool, recycled: Bytes)
    requires e.opcode.UprSnapshot? && Fits(e)
    ensures |Extras(e, lww, recycled)| == 28
    ensures DecodeEvent(Composed(e, lww, recycled)) == Carried(e)
  {
    SnapshotFields(e);
    Widths();
    ValueOfBigEndian(e.seqno, 8);
    ValueOfBigEndian(e.snapstart, 8);
    ValueOfBigEndian(e.snapend, 8);
    ValueOfBigEndian(e.snapshotType, 4);
  }

  /** The whole event is read back from a composed request: opcode, vbucket, key, body, data type, cas and seqno, and
      the metadata of a mutation or the range of a snapshot. */
  lemma DecodeWhole(e: Event, lww: bool, recycled: Bytes)
    requires (IsMutation(e.opcode) || e.opcode.UprSnapshot?) && Fits(e)
    ensures |Extras(e, lww, recycled)| >= 24
    ensures var r := Composed(e, lww, recycled);
            && (r.opcode.UprSnapshot? ==> |r.extras| == 28) && DecodeEvent(r) == Carried(e)
            && r.cas == e.cas && r.seqno == e.seqno && r.opaqueId == 0
  {
    if e.opcode.UprSnapshot? { DecodeSnapshot(e, lww, recycled); } else { DecodeMutation(e, lww, recycled); }
  }

  /** Composing loses nothing that is replicated, and nothing else gets into the request: in one mode two events give
      the same request exactly when they agree in all that is carried. */
  lemma ComposedEqualIff(e: Event, f: Event, lww: bool, a: Bytes, b: Bytes)
    requires (IsMutation(e.opcode) || e.opcode.UprSnapshot?) && Fits(e)
    requires (IsMutation(f.opcode) || f.opcode.UprSnapshot?) && Fits(f)
    ensures |Extras(e, lww, a)| >= 24 && |Extras(f, lww, b)| >= 24
    ensures Composed(e, lww, a) == Composed(f, lww, b) <==> Carried(e) == Carried(f)
  {
    DecodeWhole(e, lww, a);
    DecodeWhole(f, lww, b);
    OnlyCarried(e, lww, a);
    OnlyCarried(f, lww, b);
    RecycledDoesNotMatter(Carried(e), lww, a, b);
  }

  lemma OnlyCarried(e: Event, lww: bool, recycled: Bytes)
    requires IsMutation(e.opcode) || e.opcode.UprSnapshot?
    ensures |Extras(e, lww, recycled)| >= 16 && |Extras(Carried(e), lww, recycled)| >= 16
    ensures Composed(e, lww, recycled) == Composed(Carried(e), lww, recycled)
  {
  }

  /** The options are there exactly for last-write-wins buckets and expirations, and say which of the two it is. */
  lemma OptionsField(e: Event, lww: bool)
    ensures var x := MutationExtras(e, lww);
            && (|x| == 28 <==> lww || e.opcode.UprExpiration?)
            && (|x| == 28 ==>
                  Value(x[24..28]) == (if !e.opcode.UprExpiration? then 0x02 else if lww then 0x12 else 0x10))
  {
    MutationFields(e, lww);
    var x := MutationExtras(e, lww);
    if |x| == 28 {
      var options := BigEndian(Options(e, lww), 4);
      assert x[24..28] == options;
      Widths();
      ValueOfBigEndian(Options(e, lww), 4);
    }
  }

  function EncodeOpCode(o: Opcode): Opcode {
    if o.UprMutation? || o.TapMutation? then SetWithMeta
    else if o.TapDelete? || o.UprDeletion? || o.UprExpiration? then DeleteWithMeta
    else o
  }

  /** Encoding the opcode again, as for a request that gets a slot twice, changes nothing; deletions of both protocols
      become one opcode, mutations the other, and the rest stays. */
  lemma OpcodeOnce(o: Opcode)
    ensures EncodeOpCode(EncodeOpCode(o)) == EncodeOpCode(o)
    ensures EncodeOpCode(o) == DeleteWithMeta <==>
            o.UprDeletion? || o.UprExpiration? || o.TapDelete? || o.DeleteWithMeta?
    ensures EncodeOpCode(o) == SetWithMeta <==> o.UprMutation? || o.TapMutation? || o.SetWithMeta?
    ensures o.UprSnapshot? || o.Other? ==> EncodeOpCode(o) == o
  {
  }

  /** The decoded deletion flag is right exactly for mutations that are not deletions: the opcode that it
      looks for is put in only when the request is sent, and then the cas is cleared. */
  lemma {:induction false} DeletionFlagRightIff(e: Event, lww: bool, recycled: Bytes)
    requires IsMutation(e.opcode) && Fits(e)
    ensures |Extras(e, lww, recycled)| >= 16
    ensures var r := Composed(e, lww, recycled);
            && (DecodeSetMetaReq(r).deletion == (e.opcode.UprDeletion? || e.opcode.UprExpiration?) <==>
                e.opcode.UprMutation?)
            && DecodeSetMetaReq(r.(opcode := EncodeOpCode(r.opcode), cas := 0)).deletion ==
               (e.opcode.UprDeletion? || e.opcode.UprExpiration?)
  {
    MutationFields(e, lww);
  }

  /** The unique key tells key and revision apart, in whatever mode the requests were composed. */
  lemma UniqueKeyInjective(e: Event, f: Event, lww: bool, mode: bool, a: Bytes, b: Bytes)
    requires IsMutation(e.opcode) && Fits(e) && IsMutation(f.opcode) && Fits(f)
    requires |Extras(e, lww, a)| >= 16 && |Extras(f, mode, b)| >= 16
    ensures Composed(e, lww, a).uniqueKey == Composed(f, mode, b).uniqueKey <==>
            e.key == f.key && e.revSeqno == f.revSeqno
  {
    MutationFields(e, lww);
    MutationFields(f, mode);
    Widths();
    ValueOfBigEndian(e.revSeqno, 8);
    ValueOfBigEndian(f.revSeqno, 8);
    var x, y := BigEndian(e.revSeqno, 8), BigEndian(f.revSeqno, 8);
    if e.key + x == f.key + y {
      assert e.key == (e.key + x)[..|e.key|] && f.key == (f.key + y)[..|f.key|];
      assert x == (e.key + x)[|e.key|..] && y == (f.key + y)[|f.key|..];
    }
  }

  // -------------------------------------------------------------------------
  // Deletions, expirations and expiry times that the replication leaves out

  datatype ExpDelMode = ExpDelMode(skipDeletes: bool, skipExpirations: bool, stripExpiry: bool)

  /** ProcessExpDelTTL: the event to send, if any. */
  function ProcessExpDelTTL(e: Event, mode: ExpDelMode): Option<Event> {
    if mode.skipDeletes && e.opcode.UprDeletion? then None
    else if mode.skipExpirations && e.opcode.UprExpiration? then None
    else if mode.stripExpiry then Some(e.(expiry := 0))
    else Some(e)
  }

  /** Exactly which events a mode leaves out; no mode leaves out a plain mutation. */
  lemma LeftOutIff(e: Event, mode: ExpDelMode)
    ensures ProcessExpDelTTL(e, mode).None? <==>
            (e.opcode.UprDeletion? && mode.skipDeletes) || (e.opcode.UprExpiration? && mode.skipExpirations)
    ensures e.opcode.UprMutation? ==> ProcessExpDelTTL(e, mode).Some?
  {
  }

  /** Stripping the expiry of what is sent does not change the name of the request, nor anything else that is
      decoded. */
  lemma StrippingKeepsTheRest(e: Event, mode: ExpDelMode, lww: bool, recycled: Bytes)
    requires IsMutation(e.opcode) && Fits(e) && ProcessExpDelTTL(e, mode).Some?
    ensures var sent := ProcessExpDelTTL(e, mode).value;
            && |Extras(e, lww, recycled)| >= 16 && |Extras(sent, lww, recycled)| >= 16
            && Composed(sent, lww, recycled).uniqueKey == Composed(e, lww, recycled).uniqueKey
            && DecodeSetMetaReq(Composed(sent, lww, recycled)) ==
               DecodeSetMetaReq(Composed(e, lww, recycled)).(expiry := if mode.stripExpiry then 0 else e.expiry)
            && |Extras(sent, lww, recycled)| >= 24
            && DecodeEvent(Composed(sent, lww, recycled)) ==
               Carried(e).(expiry := if mode.stripExpiry then 0 else e.expiry)
  {
    var sent := ProcessExpDelTTL(e, mode).value;
    DecodeWhole(sent, lww, recycled);
    DecodeComposed(e, lww, recycled);
    DecodeComposed(sent, lww, recycled);
    UniqueKeyInjective(e, sent, lww, lww, recycled, recycled);
  }
}
