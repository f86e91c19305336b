/**
 How a pipeline is laid out: which source nozzle streams which vbucket, which
 target nozzle a vbucket goes to, and what a router does with a mutation. A
 topology lists the nodes in the order in which the program visits them.
 */
module Routing {
  import opened Common
  import opened LoadBalance
  import opened PartNames

  type Vb = nat

  datatype Addr = Addr(host: string)

  datatype Id = Id(name: string)

  /** A node and the vbuckets it is responsible for. */
  datatype Node = Node(addr: Addr, vbs: seq<Vb>)

  type Topology = seq<Node>

  const DCP: string := "dcp"
  const XMEM: string := "xmem"

  predicate DistinctAddrs(t: Topology) { forall k, l :: 0 <= k < l < |t| ==> t[k].addr != t[l].addr }

  predicate Has(t: Topology, k: int, vb: Vb) { 0 <= k < |t| && vb in t[k].vbs }

  /** Some node is responsible for the vbucket. */
  ghost predicate Covers(t: Topology, vb: Vb) { exists k :: Has(t, k, vb) }

  function Min(a: nat, b: nat): nat { if a <= b then a else b }

  /** How many nozzles a node gets. */
  function Count(n: Node, most: nat): nat { Min(|n.vbs|, most) }

  predicate Slot(t: Topology, most: nat, k: int, i: int) { 0 <= k < |t| && 0 <= i < Count(t[k], most) }

  function SlotId(prefix: string, topic: string, t: Topology, k: int, i: int): Id
    requires 0 <= k < |t| && 0 <= i
  {
    Id(PartId(prefix, topic, t[k].addr.host, i))
  }

  /** The vbuckets of a node's nozzle number i. */
  function Share(n: Node, most: nat, i: nat): seq<Vb>
    requires i < Count(n, most)
  {
    var w := Count(n, most);
    StartGrows(w, |n.vbs|, i, i + 1);
    StartGrows(w, |n.vbs|, i + 1, w);
    StartEnd(w, |n.vbs|);
    n.vbs[Start(w, |n.vbs|, i)..Start(w, |n.vbs|, i + 1)]
  }

  predicate Earlier(k: int, i: int, upto: int, within: int) { k < upto || (k == upto && i < within) }

  lemma SlotIdInjective(prefix: string, topic: string, t: Topology, k: int, i: int, l: int, j: int)
    requires DistinctAddrs(t) && 0 <= k < |t| && 0 <= l < |t| && 0 <= i && 0 <= j
    requires SlotId(prefix, topic, t, k, i) == SlotId(prefix, topic, t, l, j)
    ensures k == l && i == j
  {
    PartIdInjective(prefix, topic, t[k].addr.host, i, t[l].addr.host, j);
  }

  // -------------------------------------------------------------------------
  // Nozzles

  /** Nozzles by id, each with its vbuckets. */
  type Nozzles = map<Id, seq<Vb>>

  ghost predicate IsSlot(prefix: string, topic: string, t: Topology, most: nat, upto: int, within: int, id: Id) {
    exists k, i :: Slot(t, most, k, i) && Earlier(k, i, upto, within) && SlotId(prefix, topic, t, k, i) == id
  }

  predicate Built(nozzles: Nozzles, prefix: string, topic: string, t: Topology, most: nat, k: int, i: int)
    requires Slot(t, most, k, i)
  {
    var id := SlotId(prefix, topic, t, k, i);
    id in nozzles && nozzles[id] == Share(t[k], most, i)
  }

  /** The nozzles of the slots visited so far and no others, each with its share. */
  ghost predicate Filled(nozzles: Nozzles, prefix: string, topic: string, t: Topology, most: nat, upto: int,
                         within: int)
  {
    && (forall k, i ::
          Slot(t, most, k, i) && Earlier(k, i, upto, within) ==> Built(nozzles, prefix, topic, t, most, k, i))
    && (forall id :: id in nozzles ==> IsSlot(prefix, topic, t, most, upto, within, id))
  }

  lemma FilledExtends(nozzles: Nozzles, prefix: string, topic: string, t: Topology, most: nat, k: int, i: int)
    requires DistinctAddrs(t) && Slot(t, most, k, i) && Filled(nozzles, prefix, topic, t, most, k, i)
    ensures Filled(nozzles[SlotId(prefix, topic, t, k, i) := Share(t[k], most, i)], prefix, topic, t, most, k, i + 1)
  {
    var id := SlotId(prefix, topic, t, k, i);
    var more := nozzles[id := Share(t[k], most, i)];
    forall l, j | Slot(t, most, l, j) && Earlier(l, j, k, i + 1)
      ensures Built(more, prefix, topic, t, most, l, j)
    {
      if SlotId(prefix, topic, t, l, j) == id { SlotIdInjective(prefix, topic, t, l, j, k, i); }
    }
    forall x | x in more
      ensures IsSlot(prefix, topic, t, most, k, i + 1, x)
    {
      if x != id {
        assert IsSlot(prefix, topic, t, most, k, i, x);
        var l, j :| Slot(t, most, l, j) && Earlier(l, j, k, i) && SlotId(prefix, topic, t, l, j) == x;
        assert Earlier(l, j, k, i + 1);
      } else {
        assert Slot(t, most, k, i) && Earlier(k, i, k, i + 1);
      }
    }
  }

  /** Done with a node's nozzles is ready for the next node. */
  lemma FilledNextNode(nozzles: Nozzles, prefix: string, topic: string, t: Topology, most: nat, k: int)
    requires 0 <= k < |t| && Filled(nozzles, prefix, topic, t, most, k, Count(t[k], most))
    ensures Filled(nozzles, prefix, topic, t, most, k + 1, 0)
  {
    forall id | id in nozzles
      ensures IsSlot(prefix, topic, t, most, k + 1, 0, id)
    {
      assert IsSlot(prefix, topic, t, most, k, Count(t[k], most), id);
      var l, j :| Slot(t, most, l, j) && Earlier(l, j, k, Count(t[k], most)) && SlotId(prefix, topic, t, l, j) == id;
      assert Earlier(l, j, k + 1, 0);
    }
  }

  method Slice(vbs: seq<Vb>, part: Interval) returns (list: seq<Vb>)
    requires part.start <= part.end <= |vbs|
    ensures list == vbs[part.start..part.end]
  {
    list := [];
    var index := part.start;
    while index < part.end
      invariant part.start <= index <= part.end && list == vbs[part.start..index]
    {
      list := list + [vbs[index]];
      index := index + 1;
    }
  }

  method ConstructSourceNozzles(topic: string, t: Topology, most: nat) returns (nozzles: Nozzles)
    requires most >= 1 && DistinctAddrs(t)
    ensures Filled(nozzles, DCP, topic, t, most, |t|, 0)
  {
    nozzles := map[];
    var k := 0;
    while k < |t|
      invariant 0 <= k <= |t| && Filled(nozzles, DCP, topic, t, most, k, 0)
    {
      var n := t[k];
      if |n.vbs| != 0 {
        var workers := Min(|n.vbs|, most);
        var distribution := BalanceLoad(workers, |n.vbs|);
        var i := 0;
        while i < workers
          invariant 0 <= i <= workers && Filled(nozzles, DCP, topic, t, most, k, i)
        {
          StartGrows(workers, |n.vbs|, i, i + 1);
          StartGrows(workers, |n.vbs|, i + 1, workers);
          var list := Slice(n.vbs, distribution.value[i]);
          FilledExtends(nozzles, DCP, topic, t, most, k, i);
          nozzles := nozzles[Id(PartId(DCP, topic, n.addr.host, i)) := list];
          i := i + 1;
        }
      }
      FilledNextNode(nozzles, DCP, topic, t, most, k);
      k := k + 1;
    }
  }

  // -------------------------------------------------------------------------
  // Each vbucket in exactly one source nozzle

  /** Node lists do not overlap and have no repetitions. */
  ghost predicate Disjoint(t: Topology) {
    && (forall k, l, vb :: Has(t, k, vb) && Has(t, l, vb) ==> k == l)
    && (forall k, p, q :: 0 <= k < |t| && 0 <= p < q < |t[k].vbs| ==> t[k].vbs[p] != t[k].vbs[q])
  }

  lemma ShareBounds(n: Node, most: nat, i: nat)
    requires i < Count(n, most)
    ensures Start(Count(n, most), |n.vbs|, i) <= Start(Count(n, most), |n.vbs|, i + 1) <= |n.vbs|
  {
    var w := Count(n, most);
    StartGrows(w, |n.vbs|, i, i + 1);
    StartGrows(w, |n.vbs|, i + 1, w);
    StartEnd(w, |n.vbs|);
  }

  lemma ShareHolds(n: Node, most: nat, i: nat, p: nat)
    requires i < Count(n, most) && p < |n.vbs|
    requires Start(Count(n, most), |n.vbs|, i) <= p < Start(Count(n, most), |n.vbs|, i + 1)
    ensures n.vbs[p] in Share(n, most, i)
  {
    ShareBounds(n, most, i);
    var from := Start(Count(n, most), |n.vbs|, i);
    assert Share(n, most, i)[p - from] == n.vbs[p];
  }

  lemma ShareFrom(n: Node, most: nat, i: nat, vb: Vb) returns (p: nat)
    requires i < Count(n, most) && vb in Share(n, most, i)
    ensures p < |n.vbs| && n.vbs[p] == vb
    ensures Start(Count(n, most), |n.vbs|, i) <= p < Start(Count(n, most), |n.vbs|, i + 1)
  {
    ShareBounds(n, most, i);
    var list := Share(n, most, i);
    var j :| 0 <= j < |list| && list[j] == vb;
    p := Start(Count(n, most), |n.vbs|, i) + j;
    assert list[j] == n.vbs[p];
  }

  /** A vbucket of a node is in the share of one of its nozzles. */
  lemma SomeShare(n: Node, most: nat, vb: Vb) returns (i: nat)
    requires most >= 1 && vb in n.vbs
    ensures i < Count(n, most) && vb in Share(n, most, i)
  {
    var p :| 0 <= p < |n.vbs| && n.vbs[p] == vb;
    StartEnd(Count(n, most), |n.vbs|);
    i := OwnerExists(Count(n, most), |n.vbs|, p, Count(n, most));
    ShareHolds(n, most, i, p);
  }

  lemma ShareWithin(n: Node, most: nat, i: nat, vb: Vb)
    requires i < Count(n, most) && vb in Share(n, most, i)
    ensures vb in n.vbs
  {
    var p := ShareFrom(n, most, i, vb);
  }

  ghost predicate Streams(nozzles: Nozzles, id: Id, vb: Vb) { id in nozzles && vb in nozzles[id] }

  /** A nozzle streams only vbuckets of the source nodes. */
  lemma StreamsWhatSourcesHave(nozzles: Nozzles, topic: string, t: Topology, most: nat, id: Id, vb: Vb)
      returns (k: int, i: int)
    requires Filled(nozzles, DCP, topic, t, most, |t|, 0) && Streams(nozzles, id, vb)
    ensures Slot(t, most, k, i) && SlotId(DCP, topic, t, k, i) == id && Has(t, k, vb) && vb in Share(t[k], most, i)
  {
    assert IsSlot(DCP, topic, t, most, |t|, 0, id);
    k, i :| Slot(t, most, k, i) && Earlier(k, i, |t|, 0) && SlotId(DCP, topic, t, k, i) == id;
    assert Built(nozzles, DCP, topic, t, most, k, i);
    ShareWithin(t[k], most, i, vb);
  }

  /** Every vbucket of the source is streamed. */
  lemma {:induction false} EveryVbIsStreamed(nozzles: Nozzles, topic: string, t: Topology, most: nat, k: int, vb: Vb)
      returns (id: Id)
    requires most >= 1 && Filled(nozzles, DCP, topic, t, most, |t|, 0) && Has(t, k, vb)
    ensures Streams(nozzles, id, vb)
  {
    var i := SomeShare(t[k], most, vb);
    id := SlotId(DCP, topic, t, k, i);
    assert Slot(t, most, k, i) && Earlier(k, i, |t|, 0);
    assert Built(nozzles, DCP, topic, t, most, k, i);
  }

  /** And by no two nozzles, if the source nodes do not share vbuckets. */
  lemma {:induction false} VbStreamedOnce(nozzles: Nozzles, topic: string, t: Topology, most: nat, a: Id, b: Id, vb: Vb)
    requires Filled(nozzles, DCP, topic, t, most, |t|, 0) && Disjoint(t)
    requires Streams(nozzles, a, vb) && Streams(nozzles, b, vb)
    ensures a == b
  {
    var k, i := StreamsWhatSourcesHave(nozzles, topic, t, most, a, vb);
    var l, j := StreamsWhatSourcesHave(nozzles, topic, t, most, b, vb);
    assert k == l;
    var p := ShareFrom(t[k], most, i, vb);
    var q := ShareFrom(t[k], most, j, vb);
    assert p == q;
    OwnerUnique(Count(t[k], most), |t[k].vbs|, p, i, j);
  }

  // -------------------------------------------------------------------------
  // The relevant vbuckets of a target node

  function Repeat(vb: Vb, times: nat): seq<Vb> { if times == 0 then [] else Repeat(vb, times - 1) + [vb] }

  function CountIn(vbs: seq<Vb>, vb: Vb): nat {
    if vbs == [] then 0 else CountIn(vbs[..|vbs| - 1], vb) + (if vbs[|vbs| - 1] == vb then 1 else 0)
  }

  /** How often a vbucket is listed in a topology. */
  function Occurrences(t: Topology, vb: Vb): nat {
    if t == [] then 0 else Occurrences(t[..|t| - 1], vb) + CountIn(t[|t| - 1].vbs, vb)
  }

  /** Each vbucket of the list, as often as the sources list it. */
  function Relevant(list: seq<Vb>, sources: Topology): seq<Vb> {
    if list == [] then []
    else Relevant(list[..|list| - 1], sources) + Repeat(list[|list| - 1], Occurrences(sources, list[|list| - 1]))
  }

  /** The two inner loops of filterVBList: appends the vbucket once for each source entry that equals it. */
  method AppendMatches(ret: seq<Vb>, vb: Vb, sources: Topology) returns (more: seq<Vb>)
    ensures more == ret + Repeat(vb, Occurrences(sources, vb))
  {
    more := ret;
    for k := 0 to |sources|
      invariant more == ret + Repeat(vb, Occurrences(sources[..k], vb))
    {
      var vbs := sources[k].vbs;
      ghost var before := Occurrences(sources[..k], vb);
      for j := 0 to |vbs|
        invariant more == ret + Repeat(vb, before + CountIn(vbs[..j], vb))
      {
        assert vbs[..j + 1][..j] == vbs[..j];
        if vbs[j] == vb {
          more := more + [vb];
        }
      }
      assert vbs[..|vbs|] == vbs;
      assert sources[..k + 1][..k] == sources[..k];
    }
    assert sources[..|sources|] == sources;
  }

  method FilterVBList(list: seq<Vb>, sources: Topology) returns (ret: seq<Vb>)
    ensures ret == Relevant(list, sources)
  {
    ret := [];
    for n := 0 to |list|
      invariant ret == Relevant(list[..n], sources)
    {
      assert list[..n + 1][..n] == list[..n];
      ret := AppendMatches(ret, list[n], sources);
    }
    assert list[..|list|] == list;
  }

  lemma {:induction false} CountInPositive(vbs: seq<Vb>, vb: Vb)
    ensures CountIn(vbs, vb) > 0 <==> vb in vbs
  {
    if vbs != [] {
      CountInPositive(vbs[..|vbs| - 1], vb);
      assert vbs == vbs[..|vbs| - 1] + [vbs[|vbs| - 1]];
    }
  }

  lemma {:induction false} OccurrencesPositive(t: Topology, vb: Vb)
    ensures Occurrences(t, vb) > 0 <==> Covers(t, vb)
  {
    if t != [] {
      var n := |t| - 1;
      OccurrencesPositive(t[..n], vb);
      CountInPositive(t[n].vbs, vb);
      if Covers(t[..n], vb) {
        var k :| Has(t[..n], k, vb);
        assert Has(t, k, vb);
      }
      if Covers(t, vb) {
        var k :| Has(t, k, vb);
        assert k < n ==> Has(t[..n], k, vb);
      }
      assert vb in t[n].vbs ==> Has(t, n, vb);
    }
  }

  lemma {:induction false} RepeatMember(vb: Vb, times: nat, x: Vb)
    ensures x in Repeat(vb, times) <==> x == vb && times > 0
  {
    if times > 0 { RepeatMember(vb, times - 1, x); }
  }

  /** A target's vbucket is relevant exactly when some source node has it. */
  lemma {:induction false} RelevantIff(list: seq<Vb>, sources: Topology, vb: Vb)
    ensures vb in Relevant(list, sources) <==> vb in list && Covers(sources, vb)
  {
    if list != [] {
      var n := |list| - 1;
      RelevantIff(list[..n], sources, vb);
      RepeatMember(list[n], Occurrences(sources, list[n]), vb);
      OccurrencesPositive(sources, list[n]);
      assert list == list[..n] + [list[n]];
    }
  }

  function RelevantNodes(targets: Topology, sources: Topology): (r: Topology)
    ensures |r| == |targets|
    ensures forall k :: 0 <= k < |r| ==> r[k] == Node(targets[k].addr, Relevant(targets[k].vbs, sources))
  {
    seq(|targets|, k requires 0 <= k < |targets| => Node(targets[k].addr, Relevant(targets[k].vbs, sources)))
  }

  // -------------------------------------------------------------------------
  // Target nozzles

  type Routes = map<Vb, Id>

  ghost predicate LeadsTo(topic: string, t: Topology, most: nat, upto: int, within: int, vb: Vb, id: Id) {
    exists k, i :: Slot(t, most, k, i) && Earlier(k, i, upto, within) && SlotId(XMEM, topic, t, k, i) == id &&
                   vb in Share(t[k], most, i)
  }

  ghost predicate Mapped(routes: Routes, topic: string, t: Topology, most: nat, upto: int, within: int) {
    && (forall k, i, vb ::
          Slot(t, most, k, i) && Earlier(k, i, upto, within) && vb in Share(t[k], most, i) ==> vb in routes)
    && (forall vb :: vb in routes ==> LeadsTo(topic, t, most, upto, within, vb, routes[vb]))
  }

  /** Sends every vbucket of the list to one nozzle. */
  function Sent(routes: Routes, list: seq<Vb>, id: Id): Routes {
    if list == [] then routes else Sent(routes, list[..|list| - 1], id)[list[|list| - 1] := id]
  }

  lemma {:induction false} SentIs(routes: Routes, list: seq<Vb>, id: Id, vb: Vb)
    ensures vb in Sent(routes, list, id) <==> vb in routes || vb in list
    ensures vb in list ==> Sent(routes, list, id)[vb] == id
    ensures vb in routes && vb !in list ==> Sent(routes, list, id)[vb] == routes[vb]
  {
    if list != [] {
      SentIs(routes, list[..|list| - 1], id, vb);
      assert list == list[..|list| - 1] + [list[|list| - 1]];
    }
  }

  lemma MappedExtends(routes: Routes, topic: string, t: Topology, most: nat, k: int, i: int)
    requires Slot(t, most, k, i) && Mapped(routes, topic, t, most, k, i)
    ensures Mapped(Sent(routes, Share(t[k], most, i), SlotId(XMEM, topic, t, k, i)), topic, t, most, k, i + 1)
  {
    var id := SlotId(XMEM, topic, t, k, i);
    var list := Share(t[k], most, i);
    var more := Sent(routes, list, id);
    forall l, j, vb | Slot(t, most, l, j) && Earlier(l, j, k, i + 1) && vb in Share(t[l], most, j)
      ensures vb in more
    {
      SentIs(routes, list, id, vb);
    }
    forall vb | vb in more
      ensures LeadsTo(topic, t, most, k, i + 1, vb, more[vb])
    {
      SentIs(routes, list, id, vb);
      if vb in list {
        assert Slot(t, most, k, i) && Earlier(k, i, k, i + 1);
      } else {
        assert LeadsTo(topic, t, most, k, i, vb, routes[vb]);
        var l, j :| Slot(t, most, l, j) && Earlier(l, j, k, i) && SlotId(XMEM, topic, t, l, j) == routes[vb] &&
                    vb in Share(t[l], most, j);
        assert Earlier(l, j, k, i + 1);
      }
    }
  }

  lemma MappedNextNode(routes: Routes, topic: string, t: Topology, most: nat, k: int)
    requires 0 <= k < |t| && Mapped(routes, topic, t, most, k, Count(t[k], most))
    ensures Mapped(routes, topic, t, most, k + 1, 0)
  {
    forall vb | vb in routes
      ensures LeadsTo(topic, t, most, k + 1, 0, vb, routes[vb])
    {
      assert LeadsTo(topic, t, most, k, Count(t[k], most), vb, routes[vb]);
      var l, j :| Slot(t, most, l, j) && Earlier(l, j, k, Count(t[k], most)) &&
                  SlotId(XMEM, topic, t, l, j) == routes[vb] && vb in Share(t[l], most, j);
      assert Earlier(l, j, k + 1, 0);
    }
  }

  method Assign(routes: Routes, list: seq<Vb>, id: Id) returns (more: Routes)
    ensures more == Sent(routes, list, id)
  {
    more := routes;
    for n := 0 to |list|
      invariant more == Sent(routes, list[..n], id)
    {
      assert list[..n + 1][..n] == list[..n];
      more := more[list[n] := id];
    }
    assert list[..|list|] == list;
  }

  /** The nozzles of one target node: `t[k]` is the node with its relevant vbuckets. */
  method ConstructForNode(nozzles: Nozzles, routes: Routes, topic: string, ghost t: Topology, most: nat,
                          ghost k: int, addr: Addr, relevant: seq<Vb>)
      returns (moreNozzles: Nozzles, moreRoutes: Routes)
    requires most >= 1 && DistinctAddrs(t) && 0 <= k < |t| && t[k] == Node(addr, relevant)
    requires Filled(nozzles, XMEM, topic, t, most, k, 0) && Mapped(routes, topic, t, most, k, 0)
    ensures Filled(moreNozzles, XMEM, topic, t, most, k + 1, 0) && Mapped(moreRoutes, topic, t, most, k + 1, 0)
  {
    moreNozzles, moreRoutes := nozzles, routes;
    var workers := Min(|relevant|, most);
    var distribution := BalanceLoad(workers, |relevant|);
    var i := 0;
    while i < workers
      invariant 0 <= i <= workers
      invariant Filled(moreNozzles, XMEM, topic, t, most, k, i) && Mapped(moreRoutes, topic, t, most, k, i)
    {
      ShareBounds(t[k], most, i);
      var list := Slice(relevant, distribution.value[i]);
      var id := Id(PartId(XMEM, topic, addr.host, i));
      FilledExtends(moreNozzles, XMEM, topic, t, most, k, i);
      MappedExtends(moreRoutes, topic, t, most, k, i);
      moreNozzles := moreNozzles[id := list];
      moreRoutes := Assign(moreRoutes, list, id);
      i := i + 1;
    }
    FilledNextNode(moreNozzles, XMEM, topic, t, most, k);
    MappedNextNode(moreRoutes, topic, t, most, k);
  }

  method ConstructOutgoingNozzles(topic: string, targets: Topology, sources: Topology, most: nat)
      returns (nozzles: Nozzles, routes: Routes)
    requires most >= 1 && DistinctAddrs(targets)
    ensures Filled(nozzles, XMEM, topic, RelevantNodes(targets, sources), most, |targets|, 0)
    ensures Mapped(routes, topic, RelevantNodes(targets, sources), most, |targets|, 0)
  {
    nozzles, routes := map[], map[];
    ghost var t := RelevantNodes(targets, sources);
    var k := 0;
    while k < |targets|
      invariant 0 <= k <= |targets|
      invariant Filled(nozzles, XMEM, topic, t, most, k, 0) && Mapped(routes, topic, t, most, k, 0)
    {
      var relevant := FilterVBList(targets[k].vbs, sources);
      nozzles, routes := ConstructForNode(nozzles, routes, topic, t, most, k, targets[k].addr, relevant);
      k := k + 1;
    }
  }

  /** A vbucket has a route exactly when both sides have it; the route is a target nozzle of a node that has it. */
  lemma {:induction false} RouteIff(nozzles: Nozzles, routes: Routes, topic: string, targets: Topology,
                                    sources: Topology, most: nat, vb: Vb)
    requires most >= 1
    requires Filled(nozzles, XMEM, topic, RelevantNodes(targets, sources), most, |targets|, 0)
    requires Mapped(routes, topic, RelevantNodes(targets, sources), most, |targets|, 0)
    ensures vb in routes <==> Covers(targets, vb) && Covers(sources, vb)
    ensures vb in routes ==>
              routes[vb] in nozzles && vb in nozzles[routes[vb]] && Serves(topic, targets, routes[vb], vb)
  {
    var t := RelevantNodes(targets, sources);
    if vb in routes {
      assert LeadsTo(topic, t, most, |t|, 0, vb, routes[vb]);
      var k, i :| Slot(t, most, k, i) && Earlier(k, i, |t|, 0) && SlotId(XMEM, topic, t, k, i) == routes[vb] &&
                  vb in Share(t[k], most, i);
      assert Built(nozzles, XMEM, topic, t, most, k, i);
      ShareWithin(t[k], most, i, vb);
      RelevantIff(targets[k].vbs, sources, vb);
      assert Has(targets, k, vb);
      assert SlotId(XMEM, topic, targets, k, i) == routes[vb];
    }
    if Covers(targets, vb) && Covers(sources, vb) {
      var k :| Has(targets, k, vb);
      RelevantIff(targets[k].vbs, sources, vb);
      var i := SomeShare(t[k], most, vb);
      assert Slot(t, most, k, i) && Earlier(k, i, |t|, 0);
    }
  }

  /** The id is that of a nozzle to a target node that has the vbucket. */
  ghost predicate Serves(topic: string, targets: Topology, id: Id, vb: Vb) {
    exists k, i :: Has(targets, k, vb) && 0 <= i && SlotId(XMEM, topic, targets, k, i) == id
  }

  // -------------------------------------------------------------------------
  // Wiring

  datatype Router = Router(downStream: set<Id>, routes: Routes)

  predicate HasRoute(routes: Routes, out: Nozzles, vb: Vb) { vb in routes && routes[vb] in out }

  /** The downstream parts of one source nozzle, or nothing if one of its vbuckets has no target nozzle. */
  method DownStreamParts(list: seq<Vb>, routes: Routes, out: Nozzles) returns (r: Option<set<Id>>)
    ensures r.Some? <==> forall n :: 0 <= n < |list| ==> HasRoute(routes, out, list[n])
    ensures r.Some? ==> r.value == set n | 0 <= n < |list| && list[n] in routes :: routes[list[n]]
  {
    var parts: set<Id> := {};
    for n := 0 to |list|
      invariant forall m :: 0 <= m < n ==> HasRoute(routes, out, list[m])
      invariant parts == set m | 0 <= m < n && list[m] in routes :: routes[list[m]]
    {
      var vb := list[n];
      if vb !in routes {
        return None;
      }
      if routes[vb] !in out {
        return None;
      }
      parts := parts + {routes[vb]};
    }
    r := Some(parts);
  }

  ghost predicate AllRouted(source: Nozzles, routes: Routes, out: Nozzles) {
    forall id, vb :: Streams(source, id, vb) ==> HasRoute(routes, out, vb)
  }

  predicate WiredRight(list: seq<Vb>, routes: Routes, r: Router) {
    r.routes == routes && forall vb :: vb in list && vb in routes ==> routes[vb] in r.downStream
  }

  /** Gives each source nozzle its router; fails exactly when some streamed vbucket has no target nozzle. */
  method Wire(source: Nozzles, routes: Routes, out: Nozzles) returns (r: Option<map<Id, Router>>)
    ensures r.Some? <==> AllRouted(source, routes, out)
    ensures r.Some? ==> r.value.Keys == source.Keys &&
                        forall id :: id in source ==> WiredRight(source[id], routes, r.value[id])
  {
    var routers: map<Id, Router> := map[];
    var todo := source.Keys;
    while todo != {}
      invariant todo <= source.Keys && routers.Keys == source.Keys - todo
      invariant forall id :: id in routers ==> WiredRight(source[id], routes, routers[id])
      invariant forall id, vb :: id in routers && Streams(source, id, vb) ==> HasRoute(routes, out, vb)
    {
      var id :| id in todo;
      var list := source[id];
      var parts := DownStreamParts(list, routes, out);
      if parts == None {
        assert !AllRouted(source, routes, out) by {
          var n :| 0 <= n < |list| && !HasRoute(routes, out, list[n]);
          assert Streams(source, id, list[n]);
        }
        return None;
      }
      routers := routers[id := Router(parts.value, routes)];
      todo := todo - {id};
    }
    r := Some(routers);
  }

  // -------------------------------------------------------------------------
  // Forwarding

  /** What the checks on a mutation make of it; they are parameters here. */
  datatype Verdict = Pass | Filtered | CannotCompose

  datatype Data = NotAMutation | Mutation(vb: Vb, verdict: Verdict)

  datatype Outcome =
    | InvalidRouterConfig | InvalidData | InvalidRoutingMap | ComposeFailed
    | Dropped | DeliveredTo(id: Id) | InvalidRoutingResult

  /** Router.Forward together with the routing callback. */
  function Forward(r: Router, d: Data): Outcome {
    if r.downStream == {} then InvalidRouterConfig
    else match d
      case NotAMutation => InvalidData
      case Mutation(vb, verdict) =>
        if vb !in r.routes then InvalidRoutingMap
        else match verdict
          case Filtered => Dropped
          case CannotCompose => ComposeFailed
          case Pass => if r.routes[vb] in r.downStream then DeliveredTo(r.routes[vb]) else InvalidRoutingResult
  }

  /** Exactly when a mutation is delivered, dropped or an error, and which: without a target no check is made; without a
      route the mutation is not filtered; a mutation that is filtered out is no error. */
  lemma ForwardIff(r: Router, vb: Vb, verdict: Verdict)
    ensures var out := Forward(r, Mutation(vb, verdict)); var targets := r.downStream != {};
            && (out.DeliveredTo? <==> targets && vb in r.routes && verdict == Pass && r.routes[vb] in r.downStream)
            && (out.DeliveredTo? ==> out.id == r.routes[vb])
            && (out == Dropped <==> targets && vb in r.routes && verdict == Filtered)
            && (out == ComposeFailed <==> targets && vb in r.routes && verdict == CannotCompose)
            && (out == InvalidRoutingMap <==> targets && vb !in r.routes)
            && (out == InvalidRouterConfig <==> !targets)
            && out != InvalidData
    ensures Forward(r, NotAMutation) == if r.downStream == {} then InvalidRouterConfig else InvalidData
  {
  }

  /** Source and target nozzles have different names, so a pipeline's parts can be told apart by them. */
  lemma NozzlesApart(source: Nozzles, out: Nozzles, topic: string, sources: Topology, targets: Topology,
                     sourceMost: nat, targetMost: nat, id: Id)
    requires Filled(source, DCP, topic, sources, sourceMost, |sources|, 0)
    requires Filled(out, XMEM, topic, targets, targetMost, |targets|, 0)
    ensures !(id in source && id in out)
  {
    if id in source && id in out {
      assert IsSlot(DCP, topic, sources, sourceMost, |sources|, 0, id);
      assert IsSlot(XMEM, topic, targets, targetMost, |targets|, 0, id);
      var k, i :| Slot(sources, sourceMost, k, i) && SlotId(DCP, topic, sources, k, i) == id;
      var l, j :| Slot(targets, targetMost, l, j) && SlotId(XMEM, topic, targets, l, j) == id;
      PartIdEqualIff(DCP, topic, sources[k].addr.host, i, XMEM, topic, targets[l].addr.host, j);
    }
  }

  datatype Layout = Layout(source: Nozzles, out: Nozzles, routers: map<Id, Router>)

  ghost predicate AllServed(sources: Topology, targets: Topology) {
    forall vb :: Covers(sources, vb) ==> Covers(targets, vb)
  }

  /** A mutation that passes the checks goes, from any source nozzle that streams its vbucket,
      to a target nozzle for a node that has this vbucket. */
  ghost predicate Delivers(l: Layout, topic: string, targets: Topology, id: Id, vb: Vb) {
    && id in l.routers
    && Forward(l.routers[id], Mutation(vb, Pass)).DeliveredTo?
    && (var to := Forward(l.routers[id], Mutation(vb, Pass)).id; to in l.out && Serves(topic, targets, to, vb))
  }

  lemma RoutedIffServed(source: Nozzles, out: Nozzles, routes: Routes, topic: string,
                        sources: Topology, targets: Topology, sourceMost: nat, targetMost: nat)
    requires sourceMost >= 1 && targetMost >= 1
    requires Filled(source, DCP, topic, sources, sourceMost, |sources|, 0)
    requires Filled(out, XMEM, topic, RelevantNodes(targets, sources), targetMost, |targets|, 0)
    requires Mapped(routes, topic, RelevantNodes(targets, sources), targetMost, |targets|, 0)
    ensures AllRouted(source, routes, out) <==> AllServed(sources, targets)
  {
    if AllRouted(source, routes, out) {
      forall vb | Covers(sources, vb)
        ensures Covers(targets, vb)
      {
        var k :| Has(sources, k, vb);
        var id := EveryVbIsStreamed(source, topic, sources, sourceMost, k, vb);
        RouteIff(out, routes, topic, targets, sources, targetMost, vb);
      }
    }
    if AllServed(sources, targets) {
      forall id, vb | Streams(source, id, vb)
        ensures HasRoute(routes, out, vb)
      {
        var k, i := StreamsWhatSourcesHave(source, topic, sources, sourceMost, id, vb);
        RouteIff(out, routes, topic, targets, sources, targetMost, vb);
      }
    }
  }

  lemma StreamedIffCovered(source: Nozzles, topic: string, sources: Topology, most: nat)
    requires most >= 1 && Filled(source, DCP, topic, sources, most, |sources|, 0)
    ensures forall vb :: Covers(sources, vb) <==> exists id :: Streams(source, id, vb)
  {
    forall vb
      ensures Covers(sources, vb) <==> exists id :: Streams(source, id, vb)
    {
      if Covers(sources, vb) {
        var k :| Has(sources, k, vb);
        var id := EveryVbIsStreamed(source, topic, sources, most, k, vb);
      }
      if id :| Streams(source, id, vb) {
        var k, i := StreamsWhatSourcesHave(source, topic, sources, most, id, vb);
      }
    }
  }

  /** There is a source nozzle exactly when the source has a vbucket. */
  lemma EmptyIff(source: Nozzles, topic: string, sources: Topology, most: nat)
    requires most >= 1 && Filled(source, DCP, topic, sources, most, |sources|, 0)
    ensures |source| > 0 <==> exists vb :: Covers(sources, vb)
  {
    if |source| > 0 {
      var id :| id in source;
      assert IsSlot(DCP, topic, sources, most, |sources|, 0, id);
      var k, i :| Slot(sources, most, k, i) && Earlier(k, i, |sources|, 0) && SlotId(DCP, topic, sources, k, i) == id;
      assert Has(sources, k, sources[k].vbs[0]);
      assert Covers(sources, sources[k].vbs[0]);
    }
    if vb :| Covers(sources, vb) {
      var k :| Has(sources, k, vb);
      var id := EveryVbIsStreamed(source, topic, sources, most, k, vb);
      assert id in source;
    }
  }

  lemma {:induction false} WiredDelivers(l: Layout, routes: Routes, topic: string, targets: Topology, id: Id, vb: Vb)
    requires Streams(l.source, id, vb) && HasRoute(routes, l.out, vb) && Serves(topic, targets, routes[vb], vb)
    requires id in l.routers && WiredRight(l.source[id], routes, l.routers[id])
    ensures Delivers(l, topic, targets, id, vb)
  {
    assert routes[vb] in l.routers[id].downStream;
  }

  /** Every vbucket of the source is streamed, by one nozzle if the source nodes do not share vbuckets, and
      every mutation of a streamed vbucket is delivered. */
  ghost predicate Total(l: Layout, topic: string, sources: Topology, targets: Topology) {
    && (forall vb :: Covers(sources, vb) <==> exists id :: Streams(l.source, id, vb))
    && (forall id, vb :: Streams(l.source, id, vb) ==> Delivers(l, topic, targets, id, vb))
    && (Disjoint(sources) ==> forall a, b, vb :: Streams(l.source, a, vb) && Streams(l.source, b, vb) ==> a == b)
  }

  lemma {:induction false} WiredIsTotal(l: Layout, routes: Routes, topic: string, sources: Topology,
                                        targets: Topology, sourceMost: nat, most: nat)
    requires sourceMost >= 1 && most >= 1
    requires Filled(l.source, DCP, topic, sources, sourceMost, |sources|, 0)
    requires Filled(l.out, XMEM, topic, RelevantNodes(targets, sources), most, |targets|, 0)
    requires Mapped(routes, topic, RelevantNodes(targets, sources), most, |targets|, 0)
    requires AllRouted(l.source, routes, l.out) && l.routers.Keys == l.source.Keys
    requires forall id :: id in l.source ==> WiredRight(l.source[id], routes, l.routers[id])
    ensures Total(l, topic, sources, targets)
  {
    StreamedIffCovered(l.source, topic, sources, sourceMost);
    forall id, vb | Streams(l.source, id, vb)
      ensures Delivers(l, topic, targets, id, vb)
    {
      RouteIff(l.out, routes, topic, targets, sources, most, vb);
      WiredDelivers(l, routes, topic, targets, id, vb);
    }
    if Disjoint(sources) {
      forall a, b, vb | Streams(l.source, a, vb) && Streams(l.source, b, vb)
        ensures a == b
      {
        VbStreamedOnce(l.source, topic, sources, sourceMost, a, b, vb);
      }
    }
  }

  /** The nozzle and router part of pipeline construction: it succeeds exactly when the source has a vbucket
      and the target has all the vbuckets of the source. */
  method NewPipeline(topic: string, sources: Topology, targets: Topology, sourceMost: nat, targetMost: nat)
      returns (r: Option<Layout>)
    requires sourceMost >= 1 && targetMost >= 1 && DistinctAddrs(sources) && DistinctAddrs(targets)
    ensures r.Some? <==> (exists vb :: Covers(sources, vb)) && AllServed(sources, targets)
    ensures r.Some? ==> Total(r.value, topic, sources, targets)
  {
    var source := ConstructSourceNozzles(topic, sources, sourceMost);
    EmptyIff(source, topic, sources, sourceMost);
    if |source| == 0 {
      return None;
    }
    if |targets| == 0 {
      return None;
    }
    var out, routes := ConstructOutgoingNozzles(topic, targets, sources, targetMost);
    RoutedIffServed(source, out, routes, topic, sources, targets, sourceMost, targetMost);
    var routers := Wire(source, routes, out);
    if routers == None {
      return None;
    }
    r := Some(Layout(source, out, routers.value));
    WiredIsTotal(r.value, routes, topic, sources, targets, sourceMost, targetMost);
  }
}
