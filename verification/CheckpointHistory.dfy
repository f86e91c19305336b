/**
 Checkpoints of a vbucket: a bounded list of records, newest first, kept in a
 persisted document together with two marks that move one way only.
 */
module CheckpointHistory {
  import opened Common
  import opened Float64

  /** The three forms of a target vbucket identity. */
  datatype TargetOpaque =
    | VbUuid(uuid: nat)
    | VbUuidStr(id: string)
    | VbUuidAndTimestamp(vbuuid: string, startup: string)

  datatype Record = Record(failoverUuid: nat, seqno: nat, snapshotSeqno: nat, snapshotEndSeqno: nat,
                           target: Option<TargetOpaque>, targetSeqno: nat)

  type Records = seq<Option<Record>>

  /** CheckpointRecord.IsSame; nothing is returned where the program panics on a missing target identity. */
  function IsSame(a: Option<Record>, b: Option<Record>): Option<bool> {
    if a.None? || b.None? then Some(a == b)
    else
      var x, y := a.value, b.value;
      if !(x.failoverUuid == y.failoverUuid && x.seqno == y.seqno && x.snapshotSeqno == y.snapshotSeqno &&
           x.snapshotEndSeqno == y.snapshotEndSeqno) then Some(false)
      else if x.target.None? then None
      else Some(SameOpaque(x.target.value, y.target) && x.targetSeqno == y.targetSeqno)
  }

  function SameOpaque(a: TargetOpaque, b: Option<TargetOpaque>): bool {
    if b.None? then false
    else match (a, b.value)
      case (VbUuid(u), VbUuid(v)) => u == v
      case (VbUuidStr(u), VbUuidStr(v)) => u == v
      case (VbUuidAndTimestamp(u, s), VbUuidAndTimestamp(v, t)) => u == v && s == t
      case _ => false
  }

  /** Where it returns, it tells whether the records are equal; and it returns if the older one has a target
      identity. */
  lemma IsSameIsEquality(a: Option<Record>, b: Option<Record>)
    ensures IsSame(a, b).Some? ==> IsSame(a, b).value == (a == b)
    ensures a.None? || a.value.target.Some? ==> IsSame(a, b).Some?
  {
  }

  // -------------------------------------------------------------------------
  // The list of records

  function Nils(n: nat): (r: Records)
    ensures |r| == n && forall i :: 0 <= i < n ==> r[i] == None
  {
    seq(n, _ => None)
  }

  /** Cut or padded to the number of records to keep. */
  function Resized(list: Records, keep: nat): (r: Records)
    ensures |r| == keep
  {
    if |list| > keep then list[..keep] else list + Nils(keep - |list|)
  }

  datatype Addition = Addition(list: Records, added: bool)

  function AddTo(list: Records, record: Option<Record>, keep: nat): Option<Addition>
    requires keep >= 1
  {
    if list == [] then Some(Addition([record], true))
    else match IsSame(list[0], record)
      case None => None
      case Some(true) => Some(Addition(list, false))
      case Some(false) => Some(Addition([record] + Resized(list, keep)[..keep - 1], true))
  }

  class CheckpointsDoc {
    var records: array<Option<Record>>
    var xattrSeqno: nat
    var targetClusterVersion: int
    var specInternalId: string

    ghost function View(): Doc
      reads this, records
    {
      Doc(records[..], xattrSeqno, targetClusterVersion, specInternalId)
    }

    /** A new document, padded. */
    constructor New(specInternalId: string, keep: nat)
      ensures View() == Doc(Nils(keep), 0, 0, specInternalId) && fresh(records)
    {
      records := new Option<Record>[keep](_ => None);
      xattrSeqno, targetClusterVersion, this.specInternalId := 0, 0, specInternalId;
      new;
      assert records[..] == Nils(keep);
    }

    /** A document as it was read from the store. */
    constructor Load(doc: Doc)
      ensures View() == doc && fresh(records)
    {
      records := new Option<Record>[|doc.records|](i requires 0 <= i < |doc.records| => doc.records[i]);
      xattrSeqno, targetClusterVersion, specInternalId := doc.xattrSeqno, doc.targetClusterVersion, doc.specInternalId;
      new;
      assert records[..] == doc.records;
    }

    method Resize(keep: nat)
      modifies this`records
      ensures records[..] == Resized(old(records[..]), keep) && (records == old(records) || fresh(records))
    {
      if records.Length > keep {
        records := new Option<Record>[keep](i requires 0 <= i < records.Length reads this, records => records[i]);
      } else if records.Length < keep {
        var longer := new Option<Record>[keep](_ => None);
        var i := 0;
        while i < records.Length
          invariant 0 <= i <= records.Length && longer.Length == keep && fresh(longer)
          invariant forall k :: 0 <= k < i ==> longer[k] == records[k]
          invariant forall k :: i <= k < keep ==> longer[k] == None
          modifies longer
        {
          longer[i] := records[i];
          i := i + 1;
        }
        records := longer;
      }
      assert records[..] == Resized(old(records[..]), keep);
    }

    /** Moves every record one place back in the array, the last one out, from the end to the front. */
    method Shift()
      requires records.Length > 0
      modifies records
      ensures records[0] == old(records[0]) && records[1..] == old(records[..records.Length - 1])
    {
      var i := records.Length - 2;
      while i >= 0
        invariant -1 <= i <= records.Length - 2
        invariant forall k :: 0 <= k <= i + 1 ==> records[k] == old(records[k])
        invariant forall k :: i + 1 < k < records.Length ==> records[k] == old(records[k - 1])
      {
        records[i + 1] := records[i];
        i := i - 1;
      }
    }

    /** The xattr seqno may only fall once it is set, the target version only rise. */
    method MoveMarks(seqno: nat, version: int)
      modifies this`xattrSeqno, this`targetClusterVersion
      ensures xattrSeqno == LowerMark(old(xattrSeqno), seqno)
      ensures targetClusterVersion == RaiseMark(old(targetClusterVersion), version)
    {
      if seqno > 0 {
        if xattrSeqno == 0 || xattrSeqno > seqno {
          xattrSeqno := seqno;
        }
      }
      if targetClusterVersion < version {
        targetClusterVersion := version;
      }
    }

    method AddRecord(record: Option<Record>, keep: nat) returns (added: bool, panicked: bool)
      requires keep >= 1
      modifies this`records, records
      ensures panicked <==> AddTo(old(records[..]), record, keep) == None
      ensures panicked ==> View() == old(View())
      ensures !panicked ==> AddTo(old(records[..]), record, keep) == Some(Addition(records[..], added))
    {
      if records.Length > 0 {
        var same := IsSame(records[0], record);
        if same == None {
          return false, true;
        }
        if same.value {
          return false, false;
        }
        Resize(keep);
        ghost var list := records[..];
        Shift();
        records[0] := record;
        assert records[..] == [record] + list[..keep - 1];
        return true, false;
      }
      records := new Option<Record>[1](_ => record);
      assert records[..] == [record];
      return true, false;
    }
  }

  // -------------------------------------------------------------------------
  // The persisted document

  datatype Doc = Doc(records: Records, xattrSeqno: nat, targetClusterVersion: int, specInternalId: string)

  datatype Key = Key(replication: string, vbno: nat)

  type Store = map<Key, Doc>

  // What a document is after it has been written as JSON and read again: numbers in records pass through
  // floating point.

  function ReadOpaque(t: TargetOpaque): TargetOpaque { if t.VbUuid? then VbUuid(ReadNumber(t.uuid)) else t }

  function ReadRecord(r: Record): Record {
    Record(ReadNumber(r.failoverUuid), ReadNumber(r.seqno), ReadNumber(r.snapshotSeqno), ReadNumber(r.snapshotEndSeqno),
           if r.target.Some? then Some(ReadOpaque(r.target.value)) else None, ReadNumber(r.targetSeqno))
  }

  function ReadBack(r: Option<Record>): Option<Record> { if r.Some? then Some(ReadRecord(r.value)) else None }

  function ReadList(list: Records): (r: Records)
    ensures |r| == |list| && forall i :: 0 <= i < |list| ==> r[i] == ReadBack(list[i])
  {
    seq(|list|, i requires 0 <= i < |list| => ReadBack(list[i]))
  }

  function ReadDoc(d: Doc): Doc { d.(records := ReadList(d.records)) }

  lemma ReadBackStable(r: Option<Record>)
    ensures ReadBack(ReadBack(r)) == ReadBack(r)
  {
    if r.Some? {
      var x := r.value;
      ReadNumberStable(x.failoverUuid);
      ReadNumberStable(x.seqno);
      ReadNumberStable(x.snapshotSeqno);
      ReadNumberStable(x.snapshotEndSeqno);
      ReadNumberStable(x.targetSeqno);
      if x.target.Some? && x.target.value.VbUuid? { ReadNumberStable(x.target.value.uuid); }
    }
  }

  /** The record is the same after it has been stored and read. */
  predicate Survives(r: Record) { ReadRecord(r) == r }

  /** All its numbers have at most 53 bits. */
  predicate Small(r: Record) {
    && r.failoverUuid < EXACT && r.seqno < EXACT && r.snapshotSeqno < EXACT && r.snapshotEndSeqno < EXACT
    && r.targetSeqno < EXACT && (r.target.Some? && r.target.value.VbUuid? ==> r.target.value.uuid < EXACT)
  }

  lemma SmallSurvives(r: Record)
    requires Small(r)
    ensures Survives(r)
  {
    SmallIsExact(r.failoverUuid);
    SmallIsExact(r.seqno);
    SmallIsExact(r.snapshotSeqno);
    SmallIsExact(r.snapshotEndSeqno);
    SmallIsExact(r.targetSeqno);
    if r.target.Some? && r.target.value.VbUuid? { SmallIsExact(r.target.value.uuid); }
  }

  /** One call of UpsertCheckpoints: its arguments, the number of records to keep, and whether the store could be
      read and written. */
  datatype Upsert = Upsert(key: Key, record: Option<Record>, xattrSeqno: nat, version: int, specInternalId: string,
                           keep: nat, readable: bool, writable: bool)

  function LowerMark(mark: nat, seqno: nat): nat {
    if seqno > 0 && (mark == 0 || mark > seqno) then seqno else mark
  }

  function RaiseMark(mark: int, version: int): int { if mark < version then version else mark }

  function Marked(d: Doc, u: Upsert): Doc {
    d.(xattrSeqno := LowerMark(d.xattrSeqno, u.xattrSeqno),
        targetClusterVersion := RaiseMark(d.targetClusterVersion, u.version))
  }

  function Current(store: Store, u: Upsert): Doc {
    if u.key in store then ReadDoc(store[u.key]) else Doc(Nils(u.keep), 0, 0, u.specInternalId)
  }

  function Step(store: Store, u: Upsert): Store
    requires u.keep >= 1
  {
    if u.record.None? || !u.readable then store
    else
      var d := Current(store, u);
      match AddTo(d.records, u.record, u.keep)
      case None => store
      case Some(a) => if a.added && u.writable then store[u.key := Marked(d, u).(records := a.list)] else store
  }

  class CheckpointsService {
    var store: Store

    constructor ()
      ensures store == map[]
    {
      store := map[];
    }

    /** Reads the document or makes a new one, moves the marks, adds the record, and writes the document back if
        the record was added. */
    method UpsertCheckpoints(u: Upsert) returns (ok: bool, panicked: bool)
      requires u.keep >= 1
      modifies this
      ensures store == Step(old(store), u)
      ensures panicked ==> store == old(store)
      ensures panicked <==>
              u.record.Some? && u.readable && AddTo(Current(old(store), u).records, u.record, u.keep).None?
      ensures ok <==> !panicked && u.record.Some? && u.readable &&
                      (u.writable || !AddTo(Current(old(store), u).records, u.record, u.keep).value.added)
    {
      panicked := false;
      if u.record == None {
        return false, false;
      }
      if !u.readable {
        return false, false;
      }
      var doc: CheckpointsDoc;
      if u.key in store {
        doc := new CheckpointsDoc.Load(ReadDoc(store[u.key]));
      } else {
        doc := new CheckpointsDoc.New(u.specInternalId, u.keep);
      }
      doc.MoveMarks(u.xattrSeqno, u.version);
      var added, panic := doc.AddRecord(u.record, u.keep);
      if panic {
        return false, true;
      }
      ok := true;
      if added {
        ok := u.writable;
        if u.writable {
          store := store[u.key := Doc(doc.records[..], doc.xattrSeqno, doc.targetClusterVersion, doc.specInternalId)];
        }
      }
    }
  }

  // -------------------------------------------------------------------------
  // What is persisted, in terms of the calls made

  predicate Valid(us: seq<Upsert>) { forall i :: 0 <= i < |us| ==> us[i].keep >= 1 }

  function Run(us: seq<Upsert>): Store
    requires Valid(us)
  {
    if us == [] then map[] else Step(Run(us[..|us| - 1]), us[|us| - 1])
  }

  /** The call gets to the store: it can be read and written, and its record is not what the last one that got there
      reads back as. */
  predicate GetsThrough(before: seq<Upsert>, u: Upsert) {
    u.record.Some? && u.readable && u.writable &&
    (before == [] || IsSame(ReadBack(before[|before| - 1].record), u.record) == Some(false))
  }

  /** The calls for a key that got to the store, oldest first. */
  function Accepted(us: seq<Upsert>, key: Key): seq<Upsert> {
    if us == [] then []
    else
      var before := Accepted(us[..|us| - 1], key);
      var u := us[|us| - 1];
      if u.key == key && GetsThrough(before, u) then before + [u] else before
  }

  /** How many records are still kept after these calls. */
  function Kept(ups: seq<Upsert>): nat {
    if ups == [] then 0
    else
      var n := Kept(ups[..|ups| - 1]) + 1;
      if n <= ups[|ups| - 1].keep then n else ups[|ups| - 1].keep
  }

  /** What entry i of the list has to be if so many are kept. */
  function Entry(ups: seq<Upsert>, kept: nat, i: nat): Option<Record> {
    if i < kept && i < |ups| then ReadBack(ups[|ups| - 1 - i].record) else None
  }

  /** The newest records first, all but the very newest as they read back, then padding. */
  ghost predicate Newest(list: Records, ups: seq<Upsert>) {
    && ups != [] && |list| == ups[|ups| - 1].keep && Kept(ups) <= |ups|
    && (list != [] ==> list[0] == ups[|ups| - 1].record)
    && (forall i :: 1 <= i < |list| ==> list[i] == Entry(ups, Kept(ups), i))
  }

  function LowestMark(ups: seq<Upsert>): nat {
    if ups == [] then 0 else LowerMark(LowestMark(ups[..|ups| - 1]), ups[|ups| - 1].xattrSeqno)
  }

  function HighestMark(ups: seq<Upsert>): int {
    if ups == [] then 0 else RaiseMark(HighestMark(ups[..|ups| - 1]), ups[|ups| - 1].version)
  }

  ghost predicate Persisted(store: Store, key: Key, ups: seq<Upsert>) {
    if ups == [] then key !in store
    else key in store && Newest(store[key].records, ups) && store[key].xattrSeqno == LowestMark(ups) &&
         store[key].targetClusterVersion == HighestMark(ups) && store[key].specInternalId == ups[0].specInternalId
  }

  ghost predicate AllGood(ups: seq<Upsert>) { forall i :: 0 <= i < |ups| ==> ups[i].keep >= 1 && ups[i].record.Some? }

  lemma {:induction false} KeptBounds(ups: seq<Upsert>)
    requires AllGood(ups) && ups != []
    ensures 1 <= Kept(ups) <= |ups| && Kept(ups) <= ups[|ups| - 1].keep
  {
    if |ups| > 1 { KeptBounds(ups[..|ups| - 1]); }
  }

  /** The list after an addition: the new record, then the old ones as they read back. */
  function NextList(list: Records, u: Upsert): (r: Records)
    requires u.keep >= 1
    ensures |r| == u.keep && r[0] == u.record
    ensures forall i :: 1 <= i < u.keep ==> r[i] == (if i - 1 < |list| then ReadBack(list[i - 1]) else None)
  {
    [u.record] + Resized(ReadList(list), u.keep)[..u.keep - 1]
  }

  /** Reading back leaves an entry of the list what it has to be one place further back. */
  lemma EntryReadsBack(list: Records, ups: seq<Upsert>, i: nat)
    requires Newest(list, ups) && 1 <= Kept(ups) && i < |list|
    ensures ReadBack(list[i]) == Entry(ups, Kept(ups), i)
  {
    ReadBackStable(ups[|ups| - 1].record);
    if i < |ups| { ReadBackStable(ups[|ups| - 1 - i].record); }
  }

  lemma KeptNext(ups: seq<Upsert>, u: Upsert)
    ensures Kept(ups + [u]) == if Kept(ups) + 1 <= u.keep then Kept(ups) + 1 else u.keep
  {
    assert (ups + [u])[..|ups|] == ups;
  }

  lemma EntryNext(ups: seq<Upsert>, u: Upsert, kept: nat, more: nat, i: nat)
    requires 1 <= i < u.keep && kept <= |ups| && more == (if kept + 1 <= u.keep then kept + 1 else u.keep)
    ensures Entry(ups + [u], more, i) == Entry(ups, kept, i - 1)
  {
  }

  lemma NextEntry(list: Records, ups: seq<Upsert>, u: Upsert, kept: nat, more: nat, i: nat)
    requires 1 <= i < u.keep && kept <= |ups| && kept <= |list|
    requires more == (if kept + 1 <= u.keep then kept + 1 else u.keep)
    requires i - 1 < |list| ==> ReadBack(list[i - 1]) == Entry(ups, kept, i - 1)
    ensures NextList(list, u)[i] == Entry(ups + [u], more, i)
  {
    EntryNext(ups, u, kept, more, i);
  }

  /** Adding to a list of the newest records, read back, gives such a list again. */
  lemma NewestExtends(list: Records, ups: seq<Upsert>, u: Upsert)
    requires AllGood(ups) && Newest(list, ups) && u.keep >= 1 && u.record.Some?
    ensures Newest(NextList(list, u), ups + [u])
  {
    KeptBounds(ups);
    KeptNext(ups, u);
    forall i | 1 <= i < u.keep ensures NextList(list, u)[i] == Entry(ups + [u], Kept(ups + [u]), i) {
      if i - 1 < |list| { EntryReadsBack(list, ups, i - 1); }
      NextEntry(list, ups, u, Kept(ups), Kept(ups + [u]), i);
    }
  }

  lemma NewestFirst(u: Upsert)
    requires u.keep >= 1
    ensures Newest([u.record] + Resized(Nils(u.keep), u.keep)[..u.keep - 1], [u])
  {
    assert [u][..0] == [];
    assert Kept([u]) == 1;
    var list := [u.record] + Resized(Nils(u.keep), u.keep)[..u.keep - 1];
    assert forall i :: 1 <= i < |list| ==> list[i] == Nils(u.keep)[i - 1];
  }

  lemma MarksExtend(ups: seq<Upsert>, u: Upsert)
    ensures LowestMark(ups + [u]) == LowerMark(LowestMark(ups), u.xattrSeqno)
    ensures HighestMark(ups + [u]) == RaiseMark(HighestMark(ups), u.version)
  {
    assert (ups + [u])[..|ups|] == ups;
  }

  lemma FirstPersists(store: Store, u: Upsert)
    requires u.keep >= 1 && u.key !in store
    ensures Persisted(Step(store, u), u.key, if GetsThrough([], u) then [u] else [])
  {
    if u.record.Some? {
      NewestFirst(u);
      MarksExtend([], u);
      assert [] + [u] == [u];
    }
  }

  /** What is compared is the newest record as it reads back. */
  lemma HeadReadsBack(store: Store, key: Key, ups: seq<Upsert>)
    requires AllGood(ups) && ups != [] && Persisted(store, key, ups)
    ensures store[key].records != [] && ReadList(store[key].records)[0] == ReadBack(ups[|ups| - 1].record)
  {
    KeptBounds(ups);
  }

  lemma AcceptedPersists(store: Store, u: Upsert, ups: seq<Upsert>)
    requires u.keep >= 1 && AllGood(ups) && ups != [] && Persisted(store, u.key, ups) && GetsThrough(ups, u)
    ensures Persisted(Step(store, u), u.key, ups + [u])
  {
    HeadReadsBack(store, u.key, ups);
    NewestExtends(store[u.key].records, ups, u);
    MarksExtend(ups, u);
  }

  lemma StepPersists(store: Store, u: Upsert, ups: seq<Upsert>)
    requires u.keep >= 1 && AllGood(ups) && Persisted(store, u.key, ups)
    ensures Persisted(Step(store, u), u.key, if GetsThrough(ups, u) then ups + [u] else ups)
  {
    if ups == [] {
      FirstPersists(store, u);
      assert ups + [u] == [u];
    } else if GetsThrough(ups, u) {
      AcceptedPersists(store, u, ups);
    } else {
      HeadReadsBack(store, u.key, ups);
    }
  }

  lemma {:induction false} AcceptedGood(us: seq<Upsert>, key: Key)
    requires Valid(us)
    ensures AllGood(Accepted(us, key))
  {
    if us != [] { AcceptedGood(us[..|us| - 1], key); }
  }

  /** The document of every key after any calls: the newest records of those that got through, the lowest
      non-zero xattr seqno and the highest target version among them. */
  lemma {:induction false} PersistedDoc(us: seq<Upsert>, key: Key)
    requires Valid(us)
    ensures Persisted(Run(us), key, Accepted(us, key))
  {
    if us != [] {
      var n := |us| - 1;
      PersistedDoc(us[..n], key);
      AcceptedGood(us[..n], key);
      if us[n].key == key { StepPersists(Run(us[..n]), us[n], Accepted(us[..n], key)); }
    }
  }

  /** The xattr mark is the least of the non-zero ones that got through, zero if there is none; the version mark
      is the greatest, or zero. */
  lemma {:induction false} MarksAreExtremes(ups: seq<Upsert>, i: nat)
    requires i < |ups|
    ensures ups[i].xattrSeqno > 0 ==> 0 < LowestMark(ups) <= ups[i].xattrSeqno
    ensures LowestMark(ups) > 0 ==> exists j :: 0 <= j < |ups| && ups[j].xattrSeqno == LowestMark(ups)
    ensures ups[i].version <= HighestMark(ups) && 0 <= HighestMark(ups)
    ensures HighestMark(ups) > 0 ==> exists j :: 0 <= j < |ups| && ups[j].version == HighestMark(ups)
  {
    var n := |ups| - 1;
    if n > 0 {
      MarksAreExtremes(ups[..n], if i < n then i else 0);
      assert forall j :: 0 <= j < n ==> ups[..n][j] == ups[j];
    } else {
      assert ups[..n] == [];
      assert LowestMark(ups) == LowerMark(0, ups[0].xattrSeqno) && HighestMark(ups) == RaiseMark(0, ups[0].version);
    }
  }

  /** With a fixed number to keep, these are as many of the newest records as there are, up to that number. */
  lemma {:induction false} KeptAll(ups: seq<Upsert>, keep: nat)
    requires forall i :: 0 <= i < |ups| ==> ups[i].keep == keep
    ensures Kept(ups) == if |ups| <= keep then |ups| else keep
  {
    if ups != [] { KeptAll(ups[..|ups| - 1], keep); }
  }

  /** No record that got through is what the one before it reads back as. */
  lemma {:induction false} NeighboursDiffer(us: seq<Upsert>, key: Key, i: nat)
    requires i + 1 < |Accepted(us, key)|
    ensures ReadBack(Accepted(us, key)[i].record) != Accepted(us, key)[i + 1].record
  {
    var before := Accepted(us[..|us| - 1], key);
    if i + 1 < |before| {
      NeighboursDiffer(us[..|us| - 1], key, i);
    } else {
      IsSameIsEquality(ReadBack(Accepted(us, key)[i].record), Accepted(us, key)[i + 1].record);
    }
  }

  /** The marks of one document moved on from those of another. */
  predicate MarksMoved(a: Doc, b: Doc) {
    && (a.xattrSeqno > 0 ==> 0 < b.xattrSeqno <= a.xattrSeqno)
    && a.targetClusterVersion <= b.targetClusterVersion
  }

  lemma StepMovesMarks(store: Store, u: Upsert, key: Key)
    requires u.keep >= 1 && key in store
    ensures key in Step(store, u) && MarksMoved(store[key], Step(store, u)[key])
  {
  }

  /** Later calls never raise a persisted xattr seqno, take it back to zero, or lower the target version. */
  lemma {:induction false} MarksMoveOneWay(us: seq<Upsert>, more: seq<Upsert>, key: Key)
    requires Valid(us) && Valid(us + more) && key in Run(us)
    ensures key in Run(us + more)
    ensures var a, b := Run(us)[key], Run(us + more)[key];
            && (a.xattrSeqno > 0 ==> 0 < b.xattrSeqno <= a.xattrSeqno)
            && a.targetClusterVersion <= b.targetClusterVersion
    decreases |more|
  {
    if more == [] {
      assert us + more == us;
    } else {
      var n := |more| - 1;
      RunStep(us, more);
      MarksMoveOneWay(us, more[..n], key);
      StepMovesMarks(Run(us + more[..n]), more[n], key);
    }
  }

  lemma RunStep(us: seq<Upsert>, more: seq<Upsert>)
    requires Valid(us + more) && more != []
    ensures Valid(us + more[..|more| - 1]) && more[|more| - 1].keep >= 1
    ensures Run(us + more) == Step(Run(us + more[..|more| - 1]), more[|more| - 1])
  {
    FrontOfConcat(us, more);
    RunUnfolds(us + more, us + more[..|more| - 1], more[|more| - 1]);
  }

  lemma FrontOfConcat(us: seq<Upsert>, more: seq<Upsert>)
    requires more != []
    ensures us + more == (us + more[..|more| - 1]) + [more[|more| - 1]]
  {
  }

  lemma RunUnfolds(all: seq<Upsert>, front: seq<Upsert>, last: Upsert)
    requires Valid(all) && all == front + [last]
    ensures Valid(front) && last.keep >= 1 && Run(all) == Step(Run(front), last)
  {
    assert all[..|all| - 1] == front && all[|all| - 1] == last;
  }

  /** A repeated record is recognised exactly when it survives being stored and read; then nothing is persisted, not
      even the marks that come with it. */
  lemma {:induction false} RepeatRecognisedIff(us: seq<Upsert>, u: Upsert)
    requires Valid(us) && u.keep >= 1 && u.record.Some? && u.record.value.target.Some? && u.readable && u.writable
    requires var ups := Accepted(us, u.key); ups != [] && ups[|ups| - 1].record == u.record
    ensures Accepted(us + [u], u.key) == Accepted(us, u.key) <==> Survives(u.record.value)
    ensures Survives(u.record.value) ==> Run(us + [u]) == Run(us)
  {
    assert (us + [u])[..|us|] == us;
    PersistedDoc(us, u.key);
    AcceptedGood(us, u.key);
    KeptBounds(Accepted(us, u.key));
    IsSameIsEquality(ReadBack(u.record), u.record);
    assert ReadList(Run(us)[u.key].records)[0] == ReadBack(u.record);
  }

  /** If no two records in a row differ only by rounding, equal neighbours count once: for records that survive, those
      that got through are those that differ from their predecessor. */
  lemma GetsThroughIff(before: seq<Upsert>, u: Upsert)
    requires before != [] && before[|before| - 1].record.Some? && u.record.Some? && u.readable && u.writable
    requires var r := before[|before| - 1].record.value; Survives(r) && r.target.Some?
    ensures GetsThrough(before, u) <==> u.record != before[|before| - 1].record
  {
    IsSameIsEquality(before[|before| - 1].record, u.record);
  }

  /** The records of the calls for a key that have one and could read and write the store. */
  function Offered(us: seq<Upsert>, key: Key): seq<Option<Record>> {
    if us == [] then []
    else
      var u := us[|us| - 1];
      Offered(us[..|us| - 1], key) +
      if u.key == key && u.record.Some? && u.readable && u.writable then [u.record] else []
  }

  /** Equal neighbours count once. */
  function Collapsed(rs: seq<Option<Record>>): seq<Option<Record>> {
    if rs == [] then []
    else
      var front := Collapsed(rs[..|rs| - 1]);
      if front != [] && front[|front| - 1] == rs[|rs| - 1] then front else front + [rs[|rs| - 1]]
  }

  function RecordsOf(ups: seq<Upsert>): seq<Option<Record>> {
    seq(|ups|, i requires 0 <= i < |ups| => ups[i].record)
  }

  lemma CollapsedExtends(rs: seq<Option<Record>>, r: Option<Record>)
    ensures var front := Collapsed(rs);
            Collapsed(rs + [r]) == if front != [] && front[|front| - 1] == r then front else front + [r]
  {
    assert (rs + [r])[..|rs|] == rs;
  }

  lemma RecordsExtend(ups: seq<Upsert>, u: Upsert)
    ensures RecordsOf(ups + [u]) == RecordsOf(ups) + [u.record]
  {
  }

  ghost predicate AllSurvive(us: seq<Upsert>, key: Key) {
    forall i :: 0 <= i < |us| && us[i].key == key && us[i].record.Some? ==>
                  Survives(us[i].record.value) && us[i].record.value.target.Some?
  }

  ghost predicate Surviving(ups: seq<Upsert>) {
    forall i :: 0 <= i < |ups| ==>
                  ups[i].record.Some? && Survives(ups[i].record.value) && ups[i].record.value.target.Some?
  }

  lemma OneMoreCollapses(before: seq<Upsert>, offered: seq<Option<Record>>, u: Upsert)
    requires RecordsOf(before) == Collapsed(offered) && Surviving(before)
    requires u.record.Some? && u.readable && u.writable
    ensures RecordsOf(if GetsThrough(before, u) then before + [u] else before) == Collapsed(offered + [u.record])
  {
    CollapsedExtends(offered, u.record);
    RecordsExtend(before, u);
    if before != [] {
      GetsThroughIff(before, u);
      assert RecordsOf(before)[|before| - 1] == before[|before| - 1].record;
    }
  }

  lemma SurvivingExtends(before: seq<Upsert>, u: Upsert)
    requires Surviving(before) && Surviving([u])
    ensures Surviving(before + [u])
  {
    assert [u][0] == u;
  }

  /** While all records survive being read back, the history of a key is what it was offered, without repetitions in a
      row: nothing else is lost, and nothing is stored twice in a row. */
  lemma {:induction false} RepeatsCollapse(us: seq<Upsert>, key: Key)
    requires AllSurvive(us, key)
    ensures RecordsOf(Accepted(us, key)) == Collapsed(Offered(us, key))
    ensures Surviving(Accepted(us, key))
  {
    if us != [] {
      var front, u := us[..|us| - 1], us[|us| - 1];
      RepeatsCollapse(front, key);
      if u.key == key && u.record.Some? && u.readable && u.writable {
        assert us[|us| - 1] == u;
        OneMoreCollapses(Accepted(front, key), Offered(front, key), u);
        SurvivingExtends(Accepted(front, key), u);
      } else {
        assert Offered(us, key) == Offered(front, key);
      }
    }
  }

  lemma RoundedRecord(r: Record)
    requires r == Record(EXACT + 1, 7, 7, 7, Some(VbUuid(1)), 7)
    ensures ReadRecord(r) == r.(failoverUuid := EXACT)
  {
    FirstInexact();
    SmallIsExact(7);
    SmallIsExact(1);
  }

  lemma FirstStored(u: Upsert, r: Record)
    requires u == Upsert(u.key, Some(r), 0, 0, "id", 5, true, true)
    ensures Step(map[], u) == map[u.key := Doc([Some(r), None, None, None, None], 0, 0, "id")]
  {
    assert [Some(r)] + Resized(Nils(5), 5)[..4] == [Some(r), None, None, None, None];
  }

  lemma StoredAgain(u: Upsert, r: Record)
    requires u == Upsert(u.key, Some(r), 0, 0, "id", 5, true, true) &&
             IsSame(Some(ReadRecord(r)), Some(r)) == Some(false)
    ensures Step(map[u.key := Doc([Some(r), None, None, None, None], 0, 0, "id")], u) ==
            map[u.key := Doc([Some(r), Some(ReadRecord(r)), None, None, None], 0, 0, "id")]
  {
    var list := [Some(r), None, None, None, None];
    assert ReadList(list) == [Some(ReadRecord(r)), None, None, None, None];
    assert NextList(list, u) == [Some(r), Some(ReadRecord(r)), None, None, None];
  }

  /** A failover uuid just above 2^53: the same record is stored twice, the second time beside a rounded copy. */
  lemma LargeNumberStoredTwice(u: Upsert, r: Record)
    requires r == Record(EXACT + 1, 7, 7, 7, Some(VbUuid(1)), 7)
    requires u == Upsert(u.key, Some(r), 0, 0, "id", 5, true, true)
    ensures Valid([u, u])
    ensures Run([u, u]) == map[u.key := Doc([Some(r), Some(r.(failoverUuid := EXACT)), None, None, None], 0, 0, "id")]
  {
    RoundedRecord(r);
    FirstStored(u, r);
    StoredAgain(u, r);
    assert [u, u][..1] == [u] && [u][..0] == [];
    assert Run([u]) == Step(map[], u);
  }
}
