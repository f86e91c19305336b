/**
 How a pipeline collects its parts: starting from the sources it follows the
 connectors downstream and files every part under its id, once. The parts may
 form any finite graph, cycles included.
 */
module PartCollection {
  import opened Common

  datatype Id = Id(name: string)

  /** A reference to a part, which may be missing. */
  type Ref = Option<nat>

  /** A part with its id and, when it has a connector, the parts downstream of it. */
  datatype Part = Part(id: Id, connector: Option<seq<Ref>>)

  /** Parts are named by their position. */
  type Graph = seq<Part>

  predicate ValidRef(g: Graph, r: Ref) { r.Some? ==> r.value < |g| }

  predicate ValidRefs(g: Graph, refs: seq<Ref>) { forall i :: 0 <= i < |refs| ==> ValidRef(g, refs[i]) }

  predicate Valid(g: Graph) {
    forall n :: 0 <= n < |g| && g[n].connector.Some? ==> ValidRefs(g, g[n].connector.value)
  }

  /** Every reference is valid in a Valid graph. */
  predicate Edge(g: Graph, a: nat, b: nat) {
    a < |g| && b < |g| && g[a].connector.Some? && Some(b) in g[a].connector.value
  }

  /** `b` lies `steps` connectors downstream of `a`. */
  ghost predicate ReachIn(g: Graph, a: nat, b: nat, steps: nat)
    decreases steps
  {
    b < |g| && if steps == 0 then a == b else exists c: nat :: ReachIn(g, a, c, steps - 1) && Edge(g, c, b)
  }

  ghost predicate Reach(g: Graph, a: nat, b: nat) {
    exists steps: nat :: ReachIn(g, a, b, steps)
  }

  ghost predicate Reachable(g: Graph, sources: seq<Ref>, b: nat) {
    exists s: nat :: s < |g| && Some(s) in sources && Reach(g, s, b)
  }

  lemma ReachSelf(g: Graph, a: nat)
    requires a < |g|
    ensures Reach(g, a, a)
  {
    assert ReachIn(g, a, a, 0);
  }

  lemma {:induction false} ReachInStep(g: Graph, a: nat, b: nat, c: nat, steps: nat)
    requires Edge(g, a, b) && ReachIn(g, b, c, steps)
    ensures ReachIn(g, a, c, steps + 1)
    decreases steps
  {
    if steps == 0 {
      assert ReachIn(g, a, a, 0);
    } else {
      var d: nat :| ReachIn(g, b, d, steps - 1) && Edge(g, d, c);
      ReachInStep(g, a, b, d, steps - 1);
    }
  }

  lemma ReachStep(g: Graph, a: nat, b: nat, c: nat)
    requires Edge(g, a, b) && Reach(g, b, c)
    ensures Reach(g, a, c)
  {
    var steps: nat :| ReachIn(g, b, c, steps);
    ReachInStep(g, a, b, c, steps);
  }

  // -------------------------------------------------------------------------
  // What a map of parts may hold

  type Parts = map<Id, nat>

  predicate Filed(g: Graph, m: Parts, refs: seq<Ref>) {
    forall i :: 0 <= i < |refs| ==> IsFiled(g, m, refs[i])
  }

  predicate IsFiled(g: Graph, m: Parts, r: Ref) { r.Some? && r.value < |g| ==> g[r.value].id in m }

  predicate Extends(m: Parts, more: Parts) { forall id :: id in m ==> id in more && more[id] == m[id] }

  /** An entry is a part under its own id, reachable from `start`. */
  ghost predicate Sound(g: Graph, m: Parts, id: Id, start: nat) {
    id in m && m[id] < |g| && g[m[id]].id == id && Reach(g, start, m[id])
  }

  /** All that is downstream of an entry is filed as well. */
  predicate Closed(g: Graph, m: Parts, id: Id) {
    id in m && m[id] < |g| && (g[m[id]].connector.Some? ==> Filed(g, m, g[m[id]].connector.value))
  }

  /** What filing the parts from `start` on adds to a map. */
  ghost predicate Grown(g: Graph, before: Parts, after: Parts, start: nat) {
    && Extends(before, after)
    && (forall id :: id in after && id !in before ==> Sound(g, after, id, start) && Closed(g, after, id))
  }

  lemma ExtendsKeeps(g: Graph, m: Parts, more: Parts, id: Id)
    requires Extends(m, more) && Closed(g, m, id)
    ensures Closed(g, more, id)
  {
  }

  /** A child's growth, seen from its parent, on top of earlier growth. */
  lemma GrownThrough(g: Graph, before: Parts, mid: Parts, after: Parts, start: nat, child: nat)
    requires Edge(g, start, child)
    requires Grown(g, before, mid, start) && Grown(g, mid, after, child)
    ensures Grown(g, before, after, start)
  {
    forall id | id in after && id !in before
      ensures Sound(g, after, id, start) && Closed(g, after, id)
    {
      if id in mid {
        ExtendsKeeps(g, mid, after, id);
      } else {
        ReachStep(g, start, child, after[id]);
      }
    }
  }

  // -------------------------------------------------------------------------
  // The recursion

  function AllIds(g: Graph): set<Id> { set n | 0 <= n < |g| :: g[n].id }

  class PartsMap {
    var parts: Parts

    constructor ()
      ensures parts == map[]
    {
      parts := map[];
    }

    /** Files a part and everything downstream of it that is not filed yet. The ids not filed yet
        bound the recursion, so cycles end it. */
    method AddPartToMap(g: Graph, part: Ref)
      requires Valid(g) && ValidRef(g, part)
      modifies this
      ensures part == None ==> parts == old(parts)
      ensures part.Some? ==> g[part.value].id in parts && Grown(g, old(parts), parts, part.value)
      decreases AllIds(g) - parts.Keys
    {
      if part == None {
        return;
      }
      var n := part.value;
      var id := g[n].id;
      if id in parts {
        return;
      }
      parts := parts[id := n];
      ghost var own := parts;
      if g[n].connector.Some? {
        var downs := g[n].connector.value;
        var i := 0;
        while i < |downs|
          invariant 0 <= i <= |downs|
          invariant Grown(g, own, parts, n)
          invariant Filed(g, parts, downs[..i])
        {
          assert id in AllIds(g) && id in parts;
          ghost var mid := parts;
          AddPartToMap(g, downs[i]);
          if downs[i].Some? {
            assert Edge(g, n, downs[i].value);
            GrownThrough(g, own, mid, parts, n, downs[i].value);
          }
          assert Filed(g, mid, downs[..i]) ==> Filed(g, parts, downs[..i]);
          i := i + 1;
        }
        assert downs[..i] == downs;
      }
      ReachSelf(g, n);
      assert Closed(g, parts, id);
    }
  }

  /** An entry is a reachable part under its own id, with all that is downstream of it filed as well. */
  ghost predicate Good(g: Graph, sources: seq<Ref>, m: Parts, id: Id) {
    Closed(g, m, id) && g[m[id]].id == id && Reachable(g, sources, m[id])
  }

  ghost predicate AllGood(g: Graph, sources: seq<Ref>, m: Parts) {
    forall id {:trigger Good(g, sources, m, id)} :: id in m ==> Good(g, sources, m, id)
  }

  /** Everything a collection from the sources guarantees, whatever the ids. */
  ghost predicate Collected(g: Graph, sources: seq<Ref>, m: Parts) {
    Filed(g, m, sources) && AllGood(g, sources, m)
  }

  lemma CollectMore(g: Graph, sources: seq<Ref>, before: Parts, after: Parts, i: nat)
    requires i < |sources| && ValidRefs(g, sources) && AllGood(g, sources, before)
    requires if sources[i].Some? then Grown(g, before, after, sources[i].value) else after == before
    ensures AllGood(g, sources, after)
  {
    forall id | id in after
      ensures Good(g, sources, after, id)
    {
      if id in before {
        assert Good(g, sources, before, id);
        ExtendsKeeps(g, before, after, id);
      } else {
        assert Some(sources[i].value) in sources;
      }
    }
  }

  /** Fills a pipeline's map of parts: it holds exactly the reachable parts if their ids differ. */
  method Initialize(g: Graph, sources: seq<Ref>) returns (parts: Parts)
    requires Valid(g) && ValidRefs(g, sources)
    ensures Collected(g, sources, parts)
    ensures UniqueIds(g, sources) <==> HoldsAll(g, sources, parts)
  {
    var m := new PartsMap();
    var i := 0;
    while i < |sources|
      invariant 0 <= i <= |sources|
      invariant Filed(g, m.parts, sources[..i])
      invariant AllGood(g, sources, m.parts)
    {
      ghost var before := m.parts;
      m.AddPartToMap(g, sources[i]);
      CollectMore(g, sources, before, m.parts, i);
      assert Filed(g, before, sources[..i]) ==> Filed(g, m.parts, sources[..i]);
      i := i + 1;
    }
    assert sources[..i] == sources;
    parts := m.parts;
    HoldsAllIff(g, sources, parts);
  }

  // -------------------------------------------------------------------------
  // Exactly the reachable parts

  ghost predicate UniqueIds(g: Graph, sources: seq<Ref>) {
    forall a: nat, b: nat ::
      a < |g| && b < |g| && Reachable(g, sources, a) && Reachable(g, sources, b) && g[a].id == g[b].id ==> a == b
  }

  /** The map holds the reachable parts, each under its id, and nothing else. */
  ghost predicate HoldsAll(g: Graph, sources: seq<Ref>, m: Parts) {
    && (forall n: nat :: n < |g| && Reachable(g, sources, n) ==> g[n].id in m && m[g[n].id] == n)
    && (forall id :: id in m ==> m[id] < |g| && g[m[id]].id == id && Reachable(g, sources, m[id]))
  }

  lemma NextIsFiled(g: Graph, m: Parts, a: nat, b: nat)
    requires Edge(g, a, b) && g[a].id in m && m[g[a].id] == a && Closed(g, m, g[a].id)
    ensures g[b].id in m
  {
    var downs := g[a].connector.value;
    var i :| 0 <= i < |downs| && downs[i] == Some(b);
    assert IsFiled(g, m, downs[i]);
  }

  lemma FiledIsItself(g: Graph, sources: seq<Ref>, m: Parts, n: nat)
    requires Collected(g, sources, m) && UniqueIds(g, sources) && n < |g| && Reachable(g, sources, n) && g[n].id in m
    ensures m[g[n].id] == n && Closed(g, m, g[n].id)
  {
    assert Good(g, sources, m, g[n].id);
  }

  /** Collection does not stop short: it gets to every part, however many connectors away from a source. */
  lemma {:induction false} StepsCollected(g: Graph, sources: seq<Ref>, m: Parts, s: nat, b: nat, steps: nat)
    requires Collected(g, sources, m) && UniqueIds(g, sources)
    requires s < |g| && Some(s) in sources && ReachIn(g, s, b, steps)
    ensures g[b].id in m && m[g[b].id] == b && Closed(g, m, g[b].id)
    decreases steps
  {
    if steps == 0 {
      var i :| 0 <= i < |sources| && sources[i] == Some(s);
      assert IsFiled(g, m, sources[i]);
    } else {
      var c: nat :| ReachIn(g, s, c, steps - 1) && Edge(g, c, b);
      StepsCollected(g, sources, m, s, c, steps - 1);
      NextIsFiled(g, m, c, b);
    }
    assert Reach(g, s, b);
    FiledIsItself(g, sources, m, b);
  }

  lemma ReachableCollected(g: Graph, sources: seq<Ref>, m: Parts, n: nat)
    requires Collected(g, sources, m) && UniqueIds(g, sources) && n < |g| && Reachable(g, sources, n)
    ensures g[n].id in m && m[g[n].id] == n
  {
    var s: nat :| s < |g| && Some(s) in sources && Reach(g, s, n);
    var steps: nat :| ReachIn(g, s, n, steps);
    StepsCollected(g, sources, m, s, n, steps);
  }

  lemma EntriesReachable(g: Graph, sources: seq<Ref>, m: Parts, id: Id)
    requires AllGood(g, sources, m) && id in m
    ensures m[id] < |g| && g[m[id]].id == id && Reachable(g, sources, m[id])
  {
    assert Good(g, sources, m, id);
  }

  /** The collection is complete exactly when no two reachable parts share an id. */
  lemma HoldsAllIff(g: Graph, sources: seq<Ref>, m: Parts)
    requires Collected(g, sources, m)
    ensures UniqueIds(g, sources) <==> HoldsAll(g, sources, m)
  {
    if UniqueIds(g, sources) {
      forall n: nat | n < |g| && Reachable(g, sources, n)
        ensures g[n].id in m && m[g[n].id] == n
      {
        ReachableCollected(g, sources, m, n);
      }
      forall id | id in m
        ensures m[id] < |g| && g[m[id]].id == id && Reachable(g, sources, m[id])
      {
        EntriesReachable(g, sources, m, id);
      }
    }
  }
}
