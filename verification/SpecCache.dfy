/**
 The copy-on-write metadata cache of the replication spec service and its
 optimistic concurrency control: writers read an entry, build a new one from it
 and upsert it; a compare of version counters refuses metadata writes that raced,
 while writes of the runtime object are let through.
 */
module SpecCache {
  import opened Common

  datatype Key = Key(name: string)

  /** The fields that SameSpec compares, and the settings that it does not. */
  datatype Spec = Spec(id: string, internalId: string, sourceBucket: string, sourceBucketUuid: string,
                       targetClusterUuid: string, targetBucket: string, targetBucketUuid: string,
                       revision: int, settings: int)

  predicate SameSpec(a: Option<Spec>, b: Option<Spec>) {
    if a.None? || b.None? then a.None? && b.None?
    else a.value.(settings := 0) == b.value.(settings := 0)
  }

  /** Two specs are the same exactly when all but the settings agree: identity, both buckets with their uuids, the
      target cluster and the revision. */
  lemma SameSpecIff(a: Spec, b: Spec)
    ensures SameSpec(Some(a), Some(b)) <==>
            && a.id == b.id && a.internalId == b.internalId && a.revision == b.revision
            && a.sourceBucket == b.sourceBucket && a.sourceBucketUuid == b.sourceBucketUuid
            && a.targetClusterUuid == b.targetClusterUuid
            && a.targetBucket == b.targetBucket && a.targetBucketUuid == b.targetBucketUuid
    ensures !SameSpec(None, Some(b)) && !SameSpec(Some(a), None) && SameSpec(None, None)
  {
  }

  /** What the cache holds for a key: the spec, the derived runtime object, the version counter. */
  datatype Val = Val(spec: Option<Spec>, derived: Option<int>, cas: int)

  type Cache = map<Key, Val>

  /** ReplicationSpecVal.CAS: the counter moves on only when the metadata changes. */
  function CompareAndStamp(val: Val, current: Option<Val>): Option<Val> {
    if current.None? then Some(val)
    else if val.cas != current.value.cas then None
    else if SameSpec(val.spec, current.value.spec) then Some(val)
    else Some(val.(cas := val.cas + 1))
  }

  function Lookup(cache: Cache, key: Key): Option<Val> {
    if key in cache then Some(cache[key]) else None
  }

  /** MetadataCache.Upsert; a refused write leaves the cache alone. */
  function Upserted(cache: Cache, key: Key, val: Val): Cache {
    var stamped := CompareAndStamp(val, Lookup(cache, key));
    if stamped.Some? then cache[key := stamped.value] else cache
  }

  // -------------------------------------------------------------------------
  // Writers

  /** cacheSpec, removeSpecFromCache, setDerivedObjInner. */
  datatype Kind = SetSpec(spec: Spec) | RemoveSpec | SetDerived(derived: Option<int>)

  datatype Proposal = Put(val: Val) | Remove | Nothing

  /** What a writer does with the entry it has read. */
  function Propose(kind: Kind, seen: Option<Val>): Proposal {
    match kind
    case SetSpec(spec) =>
      if seen.Some? then Put(Val(Some(spec), seen.value.derived, seen.value.cas)) else Put(Val(Some(spec), None, 0))
    case RemoveSpec =>
      if seen.Some? then Put(Val(None, seen.value.derived, seen.value.cas)) else Nothing
    case SetDerived(derived) =>
      if seen.None? then Nothing
      else if seen.value.spec.None? && derived.None? then Remove
      else Put(Val(seen.value.spec, derived, seen.value.cas))
  }

  /** A writer between its read and its write, and, as history, the moment of its read and how often the key had been
      deleted then. */
  datatype Writer = Writer(key: Key, kind: Kind, seen: Option<Val>, deletions: nat, at: nat)

  datatype State = State(cache: Cache, writers: seq<Writer>, deletions: map<Key, nat>, clock: nat)

  datatype Action = Read(key: Key, kind: Kind) | Write(k: nat)

  const Initial := State(map[], [], map[], 0)

  function Deletions(s: State, key: Key): nat {
    if key in s.deletions then s.deletions[key] else 0
  }

  function Complete(s: State, w: Writer): State {
    match Propose(w.kind, w.seen)
    case Put(val) => s.(cache := Upserted(s.cache, w.key, val))
    case Remove => s.(cache := s.cache - {w.key}, deletions := s.deletions[w.key := Deletions(s, w.key) + 1])
    case Nothing => s
  }

  function Without(ws: seq<Writer>, k: nat): seq<Writer>
    requires k < |ws|
  {
    ws[..k] + ws[k + 1..]
  }

  function ReadStep(s: State, key: Key, kind: Kind): State {
    s.(writers := s.writers + [Writer(key, kind, Lookup(s.cache, key), Deletions(s, key), s.clock)],
        clock := s.clock + 1)
  }

  function WriteStep(s: State, k: nat): State
    requires k < |s.writers|
  {
    Complete(s.(writers := Without(s.writers, k), clock := s.clock + 1), s.writers[k])
  }

  function Step(s: State, a: Action): State {
    match a
    case Read(key, kind) => ReadStep(s, key, kind)
    case Write(k) => if k < |s.writers| then WriteStep(s, k) else s.(clock := s.clock + 1)
  }

  /** Nobody has deleted the key since the writer read it. */
  predicate Undisturbed(s: State, w: Writer) { Deletions(s, w.key) == w.deletions }

  /** The entry a writer saw is an earlier version of the current one, and the version counter tells which. */
  predicate Ordered(s: State, w: Writer) {
    w.seen.Some? && Undisturbed(s, w) ==>
      && w.key in s.cache
      && w.seen.value.cas <= s.cache[w.key].cas
      && (w.seen.value.cas == s.cache[w.key].cas ==> SameSpec(w.seen.value.spec, s.cache[w.key].spec))
  }

  predicate Placed(s: State, w: Writer) { Ordered(s, w) && w.deletions <= Deletions(s, w.key) }

  ghost predicate Inv(s: State) { forall i :: 0 <= i < |s.writers| ==> Placed(s, s.writers[i]) }

  // -------------------------------------------------------------------------
  // Every interleaving keeps versions in order

  /** An upsert never takes an entry back: the counter does not fall, and it stays only if the metadata stays. */
  lemma UpsertMovesForward(cache: Cache, key: Key, val: Val, other: Key)
    requires other in cache
    ensures var after := Upserted(cache, key, val);
            && other in after
            && cache[other].cas <= after[other].cas
            && (cache[other].cas == after[other].cas <==> SameSpec(cache[other].spec, after[other].spec))
  {
  }

  lemma CompleteKeeps(s: State, w: Writer, other: Writer)
    requires Placed(s, other)
    ensures Placed(Complete(s, w), other)
  {
    match Propose(w.kind, w.seen) {
      case Put(val) =>
        if other.seen.Some? && Undisturbed(s, other) { UpsertMovesForward(s.cache, w.key, val, other.key); }
      case Remove =>
      case Nothing =>
    }
  }

  lemma ReadKeeps(s: State, key: Key, kind: Kind)
    requires Inv(s)
    ensures Inv(ReadStep(s, key, kind))
  {
    var r := ReadStep(s, key, kind);
    forall i | 0 <= i < |r.writers| ensures Placed(r, r.writers[i]) {
      if i < |s.writers| { assert Placed(s, s.writers[i]); }
    }
  }

  lemma WriteKeepsOne(s: State, k: nat, i: nat)
    requires Inv(s) && k < |s.writers| && i < |s.writers| - 1
    ensures Placed(WriteStep(s, k), Without(s.writers, k)[i])
  {
    assert Placed(s, s.writers[if i < k then i else i + 1]);
    CompleteKeeps(s.(writers := Without(s.writers, k), clock := s.clock + 1), s.writers[k], Without(s.writers, k)[i]);
  }

  lemma WriteKeeps(s: State, k: nat)
    requires Inv(s) && k < |s.writers|
    ensures Inv(WriteStep(s, k))
  {
    forall i | 0 <= i < |s.writers| - 1 ensures Placed(WriteStep(s, k), WriteStep(s, k).writers[i]) {
      WriteKeepsOne(s, k, i);
    }
  }

  lemma StepKeeps(s: State, a: Action)
    requires Inv(s)
    ensures Inv(Step(s, a))
  {
    match a {
      case Read(key, kind) => ReadKeeps(s, key, kind);
      case Write(k) =>
        if k < |s.writers| {
          WriteKeeps(s, k);
        } else {
          forall i | 0 <= i < |s.writers| ensures Placed(Step(s, a), s.writers[i]) { assert Placed(s, s.writers[i]); }
        }
    }
  }

  function Run(actions: seq<Action>): State {
    if actions == [] then Initial
    else Step(Run(actions[..|actions| - 1]), actions[|actions| - 1])
  }

  lemma {:induction false} RunKeeps(actions: seq<Action>)
    ensures Inv(Run(actions))
  {
    if actions != [] {
      RunKeeps(actions[..|actions| - 1]);
      StepKeeps(Run(actions[..|actions| - 1]), actions[|actions| - 1]);
    }
  }

  // -------------------------------------------------------------------------
  // What the version counter buys

  /** A write based on a spec that has been replaced is refused and changes nothing. */
  lemma {:induction false} ReplacedSpecIsRefused(actions: seq<Action>, k: nat)
    requires var s := Run(actions);
             k < |s.writers| && s.writers[k].seen.Some? && Undisturbed(s, s.writers[k]) &&
             Propose(s.writers[k].kind, s.writers[k].seen).Put?
    requires var s := Run(actions); var w := s.writers[k];
             w.key in s.cache ==> !SameSpec(w.seen.value.spec, s.cache[w.key].spec)
    ensures Step(Run(actions), Write(k)).cache == Run(actions).cache
  {
    RunKeeps(actions);
    assert Placed(Run(actions), Run(actions).writers[k]);
  }

  /** A late write of the runtime object never brings an old spec back, nor moves the version. */
  lemma {:induction false} DerivedWriteKeepsSpec(actions: seq<Action>, k: nat)
    requires var s := Run(actions);
             k < |s.writers| && s.writers[k].kind.SetDerived? && s.writers[k].seen.Some? &&
             Undisturbed(s, s.writers[k]) && Propose(s.writers[k].kind, s.writers[k].seen).Put?
    ensures var s := Run(actions); var key := s.writers[k].key; var after := Step(s, Write(k)).cache;
            && key in s.cache && key in after
            && SameSpec(s.cache[key].spec, after[key].spec)
            && s.cache[key].cas == after[key].cas
  {
    RunKeeps(actions);
    assert Placed(Run(actions), Run(actions).writers[k]);
  }

  /** From one state to a later one: unless the key was deleted, its version did not fall,
      and it stayed exactly when the metadata stayed. */
  predicate Forward(s: State, t: State, key: Key) {
    && Deletions(s, key) <= Deletions(t, key)
    && (key in s.cache && Deletions(s, key) == Deletions(t, key) ==>
          && key in t.cache
          && s.cache[key].cas <= t.cache[key].cas
          && (s.cache[key].cas == t.cache[key].cas <==> SameSpec(s.cache[key].spec, t.cache[key].spec)))
  }

  lemma StepForward(s: State, a: Action, key: Key)
    ensures Forward(s, Step(s, a), key)
  {
    if a.Write? && a.k < |s.writers| {
      var w := s.writers[a.k];
      match Propose(w.kind, w.seen) {
        case Put(val) => if key in s.cache { UpsertMovesForward(s.cache, w.key, val, key); }
        case Remove =>
        case Nothing =>
      }
    }
  }

  lemma {:induction false} DeletionsOnlyGrow(actions: seq<Action>, more: seq<Action>, key: Key)
    ensures Deletions(Run(actions), key) <= Deletions(Run(actions + more), key)
    decreases |more|
  {
    if more == [] {
      assert actions + more == actions;
    } else {
      DeletionsOnlyGrow(actions, more[..|more| - 1], key);
      LastStep(actions, more, key);
    }
  }

  predicate Holds(cache: Cache, key: Key, spec: Option<Spec>) {
    key in cache && SameSpec(spec, cache[key].spec)
  }

  /** The key's metadata is `spec` after the first `actions` and at every moment of the stretch that follows. */
  ghost predicate SpecStays(actions: seq<Action>, more: seq<Action>, key: Key, spec: Option<Spec>) {
    Holds(Run(actions + more).cache, key, spec) && (more == [] || SpecStays(actions, more[..|more| - 1], key, spec))
  }

  lemma Chain(a: Val, b: Val, c: Val)
    requires a.cas <= b.cas <= c.cas
    requires a.cas == b.cas ==> SameSpec(a.spec, b.spec)
    requires b.cas == c.cas <==> SameSpec(b.spec, c.spec)
    ensures a.cas == c.cas <==> a.cas == b.cas && SameSpec(a.spec, c.spec)
  {
  }

  lemma LastStep(actions: seq<Action>, more: seq<Action>, key: Key)
    requires more != []
    ensures Forward(Run(actions + more[..|more| - 1]), Run(actions + more), key)
  {
    FrontOfConcat(actions, more);
    RunForward(actions + more, actions + more[..|more| - 1], more[|more| - 1], key);
  }

  lemma FrontOfConcat(actions: seq<Action>, more: seq<Action>)
    requires more != []
    ensures actions + more == (actions + more[..|more| - 1]) + [more[|more| - 1]]
  {
  }

  lemma RunForward(all: seq<Action>, front: seq<Action>, last: Action, key: Key)
    requires all == front + [last]
    ensures Forward(Run(front), Run(all), key)
  {
    RunExtends(front, last);
    StepForward(Run(front), last, key);
  }

  /** Over a stretch of a run without a deletion of the key, the version never falls, and it is unchanged
      exactly when the metadata was the same at every moment of the stretch: no change and change back hides. */
  lemma {:induction false} VersionsTellChanges(actions: seq<Action>, more: seq<Action>, key: Key)
    requires key in Run(actions).cache && Deletions(Run(actions), key) == Deletions(Run(actions + more), key)
    ensures var before := Run(actions).cache; var now := Run(actions + more).cache;
            && key in now
            && before[key].cas <= now[key].cas
            && (before[key].cas == now[key].cas <==> SpecStays(actions, more, key, before[key].spec))
    decreases |more|
  {
    if more == [] {
      assert actions + more == actions;
    } else {
      DeletionsOnlyGrow(actions, more[..|more| - 1], key);
      LastStep(actions, more, key);
      VersionsTellChanges(actions, more[..|more| - 1], key);
      Chain(Run(actions).cache[key], Run(actions + more[..|more| - 1]).cache[key], Run(actions + more).cache[key]);
    }
  }

  /** A pending writer's picture of the entry is the entry at the moment of its read. */
  predicate Saw(s: State, w: Writer) { w.seen == Lookup(s.cache, w.key) && w.deletions == Deletions(s, w.key) }

  lemma {:induction false} ClockCounts(actions: seq<Action>)
    ensures Run(actions).clock == |actions|
  {
    if actions != [] { ClockCounts(actions[..|actions| - 1]); }
  }

  /** A pending writer has just read, or was pending before the step. */
  lemma PendingBefore(s: State, a: Action, k: nat) returns (i: nat)
    requires k < |Step(s, a).writers| && !(a.Read? && k == |s.writers|)
    ensures i < |s.writers| && Step(s, a).writers[k] == s.writers[i]
  {
    i := if a.Write? && a.k < |s.writers| && k >= a.k then k + 1 else k;
    if a.Write? && a.k < |s.writers| {
      var ws := Without(s.writers, a.k);
      assert Step(s, a).writers == ws;
    }
  }

  lemma {:induction false} WriterSaw(actions: seq<Action>, k: nat)
    requires k < |Run(actions).writers|
    ensures var w := Run(actions).writers[k]; w.at <= |actions| && Saw(Run(actions[..w.at]), w)
  {
    var front, a := actions[..|actions| - 1], actions[|actions| - 1];
    ClockCounts(front);
    if a.Read? && k == |Run(front).writers| {
      assert actions[..|front|] == front;
    } else {
      var i := PendingBefore(Run(front), a, k);
      WriterSaw(front, i);
      var w := Run(front).writers[i];
      assert actions[..w.at] == front[..w.at];
    }
  }

  /** The upsert of a pending writer would go through. */
  predicate Accepted(s: State, w: Writer) {
    var p := Propose(w.kind, w.seen);
    p.Put? && CompareAndStamp(p.val, Lookup(s.cache, w.key)).Some?
  }

  /** A writer that saw an entry which nobody deleted since gets its write in exactly when the metadata was the same at
      every moment from its read to now. */
  lemma {:induction false} WriteAcceptedIffUnchanged(actions: seq<Action>, k: nat)
    requires var s := Run(actions);
             k < |s.writers| && s.writers[k].seen.Some? && Undisturbed(s, s.writers[k]) &&
             Propose(s.writers[k].kind, s.writers[k].seen).Put?
    ensures var s := Run(actions); var w := s.writers[k];
            && w.at <= |actions|
            && (Accepted(s, w) <==> SpecStays(actions[..w.at], actions[w.at..], w.key, w.seen.value.spec))
  {
    var w := Run(actions).writers[k];
    WriterSaw(actions, k);
    assert actions[..w.at] + actions[w.at..] == actions;
    VersionsTellChanges(actions[..w.at], actions[w.at..], w.key);
  }

  /** An accepted write takes the place of metadata that its writer did not see. */
  predicate Replaces(s: State, w: Writer) {
    Accepted(s, w) && w.key in s.cache && !(w.seen.Some? && SameSpec(w.seen.value.spec, s.cache[w.key].spec))
  }

  /** Exactly when this happens, for every pending write of every run: the key is there with the version that the writer
      proposes, and the writer saw no entry, or saw one that was deleted since and had other metadata. */
  lemma {:induction false} ReplacesIff(actions: seq<Action>, k: nat)
    requires k < |Run(actions).writers|
    requires Propose(Run(actions).writers[k].kind, Run(actions).writers[k].seen).Put?
    ensures var s := Run(actions); var w := s.writers[k]; var val := Propose(w.kind, w.seen).val;
            Replaces(s, w) <==>
            && w.key in s.cache && s.cache[w.key].cas == val.cas
            && (w.seen.None? || (!Undisturbed(s, w) && !SameSpec(w.seen.value.spec, s.cache[w.key].spec)))
  {
    RunKeeps(actions);
    assert Placed(Run(actions), Run(actions).writers[k]);
  }

  // -------------------------------------------------------------------------
  // Where the protection ends

  function Example(revision: int): Spec { Spec("r", "i", "s", "su", "c", "t", "tu", revision, 0) }

  lemma RunExtends(actions: seq<Action>, a: Action)
    ensures Run(actions + [a]) == Step(Run(actions), a)
  {
    assert (actions + [a])[..|actions|] == actions;
  }

  lemma TwoReads(key: Key, first: Kind, second: Kind)
    ensures Run([Read(key, first), Read(key, second)]) ==
            State(map[], [Writer(key, first, None, 0, 0), Writer(key, second, None, 0, 1)], map[], 2)
  {
    var one := State(map[], [Writer(key, first, None, 0, 0)], map[], 1);
    assert [Read(key, first)] == [] + [Read(key, first)];
    RunExtends([], Read(key, first));
    assert Run([Read(key, first)]) == one;
    assert [Read(key, first), Read(key, second)] == [Read(key, first)] + [Read(key, second)];
    RunExtends([Read(key, first)], Read(key, second));
  }

  lemma FirstWrites(s: State)
    requires |s.writers| >= 1
    ensures Step(s, Write(0)) == Complete(s.(writers := s.writers[1..], clock := s.clock + 1), s.writers[0])
  {
    assert Without(s.writers, 0) == s.writers[1..];
  }

  /** Two writers that both find the key absent both succeed, and the second replaces the first's spec. */
  lemma RacingCreatorsBothSucceed(key: Key)
    ensures var first := SetSpec(Example(1)); var second := SetSpec(Example(2));
            var actions := [Read(key, first), Read(key, second)] + [Write(0)];
            && Run(actions).writers == [Writer(key, second, None, 0, 1)]
            && Run(actions).cache == map[key := Val(Some(Example(1)), None, 0)]
            && Run(actions + [Write(0)]).cache == map[key := Val(Some(Example(2)), None, 1)]
  {
    var first, second := SetSpec(Example(1)), SetSpec(Example(2));
    var both := [Read(key, first), Read(key, second)];
    var w := Writer(key, second, None, 0, 1);
    TwoReads(key, first, second);
    RunExtends(both, Write(0));
    FirstWrites(Run(both));
    var s := State(map[key := Val(Some(Example(1)), None, 0)], [w], map[], 3);
    assert Run(both + [Write(0)]) == s;
    RunExtends(both + [Write(0)], Write(0));
    FirstWrites(s);
  }

  function DerivedOf(val: Option<Val>): Option<int> { if val.Some? then val.value.derived else None }

  /** For every accepted metadata write of every run on a key that is there: the runtime object stays exactly when it is
      the one that was there when the writer read, none if the key was not there. Another one set in between is lost
      although the write is accepted. */
  lemma {:induction false} DerivedKeptIff(actions: seq<Action>, k: nat)
    requires var s := Run(actions);
             k < |s.writers| && !s.writers[k].kind.SetDerived? && Accepted(s, s.writers[k]) &&
             s.writers[k].key in s.cache
    ensures var s := Run(actions); var w := s.writers[k]; var after := Step(s, Write(k)).cache;
            && w.at <= |actions| && w.key in after
            && (after[w.key].derived == s.cache[w.key].derived <==>
                s.cache[w.key].derived == DerivedOf(Lookup(Run(actions[..w.at]).cache, w.key)))
  {
    WriterSaw(actions, k);
  }

  /** The entry of `key` holds the first example and `derived`; the writers are as given. */
  function Started(key: Key, derived: Option<int>, writers: seq<Writer>, clock: nat): State {
    State(map[key := Val(Some(Example(1)), derived, 0)], writers, map[], clock)
  }

  lemma RunTwo(actions: seq<Action>, x: Action, y: Action)
    ensures Run(actions + [x, y]) == Step(Step(Run(actions), x), y)
  {
    assert actions + [x, y] == actions + [x] + [y];
    RunExtends(actions, x);
    RunExtends(actions + [x], y);
  }

  lemma CreatedAlone(key: Key)
    ensures Run([Read(key, SetSpec(Example(1))), Write(0)]) == Started(key, None, [], 2)
  {
    var read := Read(key, SetSpec(Example(1)));
    assert [] + [read, Write(0)] == [read, Write(0)];
    RunTwo([], read, Write(0));
    var one := State(map[], [Writer(key, SetSpec(Example(1)), None, 0, 0)], map[], 1);
    assert Step(Initial, read) == one;
    FirstWrites(one);
  }

  lemma BothRead(key: Key, spec: Spec, started: int)
    ensures var seen := Some(Val(Some(Example(1)), None, 0));
            Step(Step(Started(key, None, [], 2), Read(key, SetSpec(spec))), Read(key, SetDerived(Some(started)))) ==
            Started(key, None, [Writer(key, SetSpec(spec), seen, 0, 2),
                                Writer(key, SetDerived(Some(started)), seen, 0, 3)], 4)
  {
  }

  lemma BothWrite(key: Key, spec: Spec, started: int)
    ensures var seen := Some(Val(Some(Example(1)), None, 0)); var w := Writer(key, SetSpec(spec), seen, 0, 2);
            var s := Started(key, None, [w, Writer(key, SetDerived(Some(started)), seen, 0, 3)], 4);
            && Step(s, Write(1)) == Started(key, Some(started), [w], 5)
            && key in Step(Step(s, Write(1)), Write(0)).cache
            && Step(Step(s, Write(1)), Write(0)).cache[key].(cas := 0) == Val(Some(spec), None, 0)
  {
    var seen := Some(Val(Some(Example(1)), None, 0));
    var w := Writer(key, SetSpec(spec), seen, 0, 2);
    var s := Started(key, None, [w, Writer(key, SetDerived(Some(started)), seen, 0, 3)], 4);
    assert Without(s.writers, 1) == [w];
    FirstWrites(Started(key, Some(started), [w], 5));
  }

  /** A run that loses a runtime object: set between the read and the write of a metadata update, it is gone after the
      update, which is accepted. */
  lemma {:induction false} SpecWriteDropsDerived(key: Key, spec: Spec, started: int)
    ensures var actions := [Read(key, SetSpec(Example(1))), Write(0)] +
                           [Read(key, SetSpec(spec)), Read(key, SetDerived(Some(started)))] + [Write(1)];
            && Run(actions).cache == map[key := Val(Some(Example(1)), Some(started), 0)]
            && key in Run(actions + [Write(0)]).cache
            && Run(actions + [Write(0)]).cache[key].(cas := 0) == Val(Some(spec), None, 0)
  {
    var created := [Read(key, SetSpec(Example(1))), Write(0)];
    var read := created + [Read(key, SetSpec(spec)), Read(key, SetDerived(Some(started)))];
    CreatedAlone(key);
    RunTwo(created, Read(key, SetSpec(spec)), Read(key, SetDerived(Some(started))));
    BothRead(key, spec, started);
    RunExtends(read, Write(1));
    RunExtends(read + [Write(1)], Write(0));
    BothWrite(key, spec, started);
  }

  /** Runs a writer from read to write while one other writer waits. */
  function Alone(s: State, key: Key, kind: Kind): State {
    Step(Step(s, Read(key, kind)), Write(1))
  }

  lemma AloneCompletes(s: State, key: Key, kind: Kind)
    requires |s.writers| == 1
    ensures Alone(s, key, kind) ==
            Complete(s.(clock := s.clock + 2), Writer(key, kind, Lookup(s.cache, key), Deletions(s, key), s.clock))
  {
    var r := Step(s, Read(key, kind));
    assert Without(r.writers, 1) == s.writers;
  }

  /** A key that is removed, deleted and created anew starts its versions over: a write based on the
      entry before the deletion is accepted and replaces the new spec. */
  lemma {:induction false} RecreatedKeyIsOverwritten(s: State, key: Key, spec: Spec, stale: Spec)
    requires key in s.cache && s.writers == [] && s.cache[key].spec.Some? && s.cache[key].cas == 0
    ensures var s1 := Step(s, Read(key, SetSpec(stale)));
            var s2 := Alone(s1, key, RemoveSpec);
            var s3 := Alone(s2, key, SetDerived(None));
            var s4 := Alone(s3, key, SetSpec(spec));
            && s2.cache == s.cache[key := Val(None, s.cache[key].derived, 1)]
            && key !in s3.cache
            && s4.cache == s3.cache[key := Val(Some(spec), None, 0)]
            && Holds(Step(s4, Write(0)).cache, key, Some(stale))
  {
    var s1 := Step(s, Read(key, SetSpec(stale)));
    AloneCompletes(s1, key, RemoveSpec);
    var s2 := Alone(s1, key, RemoveSpec);
    AloneCompletes(s2, key, SetDerived(None));
    var s3 := Alone(s2, key, SetDerived(None));
    AloneCompletes(s3, key, SetSpec(spec));
  }

  // -------------------------------------------------------------------------
  // The cache on the heap

  /** A cached object; the cache holds references to it, so it must not change once published. */
  class ReplicationSpecVal {
    var spec: Option<Spec>
    var derived: Option<int>
    var cas: int

    constructor (spec: Option<Spec>, derived: Option<int>, cas: int)
      ensures View() == Val(spec, derived, cas)
    {
      this.spec, this.derived, this.cas := spec, derived, cas;
    }

    ghost function View(): Val
      reads this
    {
      Val(spec, derived, cas)
    }

    /** Compares the counters and stamps this object; the other object may be missing. */
    method CAS(other: ReplicationSpecVal?) returns (ok: bool)
      modifies this`cas
      ensures ok <==> CompareAndStamp(old(View()), if other == null then None else Some(old(other.View()))).Some?
      ensures ok ==> Some(View()) ==
                     CompareAndStamp(old(View()), if other == null then None else Some(old(other.View())))
      ensures !ok ==> View() == old(View())
    {
      if other == null {
        return true;
      }
      if cas == other.cas {
        if !SameSpec(spec, other.spec) {
          cas := cas + 1;
        }
        return true;
      }
      return false;
    }
  }

  class EntryMap {
    var entries: map<Key, ReplicationSpecVal>

    constructor ()
      ensures entries == map[]
    {
      entries := map[];
    }

    ghost function View(): Cache
      reads this, entries.Values
    {
      map key | key in entries :: entries[key].View()
    }
  }

  class MetadataCache {
    var current: EntryMap

    constructor ()
      ensures fresh(current) && current.View() == map[]
    {
      current := new EntryMap();
    }

    method Get(key: Key) returns (val: ReplicationSpecVal?)
      ensures val == null ==> Lookup(current.View(), key) == None
      ensures val != null ==> key in current.entries && val == current.entries[key]
      ensures val != null ==> Lookup(current.View(), key) == Some(val.View())
    {
      var entries := current.entries;
      val := if key in entries then entries[key] else null;
    }

    /** Publishes a new map; a map handed out before keeps its entries, and, unless the caller upserts an object that
        is already published, so do the objects it holds. */
    method Upsert(key: Key, val: ReplicationSpecVal) returns (ok: bool)
      modifies this, val`cas
      ensures ok <==> CompareAndStamp(old(val.View()), Lookup(old(current.View()), key)).Some?
      ensures if ok then Some(val.View()) == CompareAndStamp(old(val.View()), Lookup(old(current.View()), key))
              else val.View() == old(val.View())
      ensures if ok then fresh(current) && current.entries == old(current.entries)[key := val]
              else current == old(current)
      ensures old(current).entries == old(current.entries)
      ensures val !in old(current.entries.Values) ==>
                && current.View() == Upserted(old(current.View()), key, old(val.View()))
                && old(current).View() == old(current.View())
    {
      var now := current;
      var currentVal: ReplicationSpecVal? := if key in now.entries then now.entries[key] else null;
      ok := val.CAS(currentVal);
      if !ok {
        return;
      }
      Publish(key, val);
      assert val !in old(current.entries.Values) ==> current.View() == old(current.View())[key := val.View()];
    }

    /** Makes a copy with the entry the current map. */
    method Publish(key: Key, val: ReplicationSpecVal)
      modifies this
      ensures fresh(current) && current.entries == old(current.entries)[key := val]
    {
      var next := Copy(current, {});
      next.entries := next.entries[key := val];
      current := next;
    }

    /** As with Upsert, maps handed out before are left alone. */
    method Delete(key: Key)
      modifies this
      ensures fresh(current) && current.entries == old(current.entries) - {key}
      ensures current.View() == old(current.View()) - {key}
      ensures old(current).entries == old(current.entries) && old(current).View() == old(current.View())
    {
      current := Copy(current, {key});
    }

    static method Copy(from: EntryMap, skip: set<Key>) returns (to: EntryMap)
      ensures fresh(to) && to.entries == from.entries - skip
    {
      to := new EntryMap();
      var todo := from.entries.Keys;
      while todo != {}
        invariant todo <= from.entries.Keys
        invariant fresh(to)
        invariant to.entries == from.entries - (todo + skip)
      {
        var k :| k in todo;
        if k !in skip {
          to.entries := to.entries[k := from.entries[k]];
        }
        todo := todo - {k};
      }
    }
  }

  /** What a writer leaves when nobody comes between its read and its write. */
  function Applied(cache: Cache, key: Key, kind: Kind): Cache {
    match Propose(kind, Lookup(cache, key))
    case Put(val) => Upserted(cache, key, val)
    case Remove => cache - {key}
    case Nothing => cache
  }

  /** A writer that nobody interrupts is always accepted: the key then holds what it proposed. */
  lemma UninterruptedWriteSucceeds(cache: Cache, key: Key, kind: Kind)
    ensures var after := Applied(cache, key, kind);
            match kind
            case SetSpec(spec) => Holds(after, key, Some(spec)) &&
                (key in cache ==> after[key].derived == cache[key].derived)
            case RemoveSpec => if key in cache then Holds(after, key, None) else after == cache
            case SetDerived(derived) =>
              if key !in cache then after == cache
              else if cache[key].spec.None? && derived.None? then key !in after
              else after == cache[key := cache[key].(derived := derived)]
  {
  }

  class ReplicationSpecService {
    const cache: MetadataCache

    constructor (cache: MetadataCache)
      ensures this.cache == cache
    {
      this.cache := cache;
    }

    method CacheSpec(key: Key, spec: Spec) returns (ok: bool)
      modifies cache
      ensures ok
      ensures cache.current.View() == Applied(old(cache.current.View()), key, SetSpec(spec))
    {
      var seen := cache.Get(key);
      var updated;
      if seen != null {
        updated := new ReplicationSpecVal(Some(spec), seen.derived, seen.cas);
      } else {
        updated := new ReplicationSpecVal(Some(spec), None, 0);
      }
      ok := cache.Upsert(key, updated);
    }

    method RemoveSpecFromCache(key: Key) returns (ok: bool)
      modifies cache
      ensures ok
      ensures cache.current.View() == Applied(old(cache.current.View()), key, RemoveSpec)
    {
      var seen := cache.Get(key);
      ok := true;
      if seen != null {
        var updated := new ReplicationSpecVal(None, seen.derived, seen.cas);
        ok := cache.Upsert(key, updated);
      }
    }

    method SetDerivedObj(key: Key, derived: Option<int>) returns (found: bool)
      modifies cache
      ensures found <==> key in old(cache.current.View())
      ensures cache.current.View() == Applied(old(cache.current.View()), key, SetDerived(derived))
    {
      var seen := cache.Get(key);
      found := seen != null;
      if seen != null {
        if seen.spec == None && derived == None {
          cache.Delete(key);
        } else {
          var updated := new ReplicationSpecVal(seen.spec, derived, seen.cas);
          var ok := cache.Upsert(key, updated);
        }
      }
    }
  }
}
