/**
 Can an XMEM nozzle always send what it has accepted? The exact answer in terms of its settings: two ways to come to
 a standstill, runs that lead there, and a schedule that drains the nozzle from every other state.
 */
module ChannelProgress {
  import opened DataChannel

  function BatchBytes(c: Config): nat { c.maxSize * 1000 }

  // -------------------------------------------------------------------------
  // The two risks; q is the least size of a request

  /** A batch that is not full can hold as many bytes as the channel may. */
  predicate TokenRisk(c: Config, q: nat) {
    c.maxCount >= 2 && q < BatchBytes(c) && c.maxBytes < BatchBytes(c)
  }

  /** The ready queue can be filled with j batches full by count, the others full by size, one more request fits into
      the channel behind them, and their bytes do not keep it out. */
  predicate FillsQueue(c: Config, q: nat, j: nat) {
    && j <= READY_CAPACITY
    && j * c.maxCount + (READY_CAPACITY - j) < c.maxCount * 10
    && j * (c.maxCount * q) + (READY_CAPACITY - j) * BatchBytes(c) < c.maxBytes
  }

  ghost predicate FlushRisk(c: Config, q: nat) {
    c.maxCount >= 2 && q < BatchBytes(c) && exists j: nat :: FillsQueue(c, q, j)
  }

  predicate Sensible(c: Config) { c.maxCount > 0 && c.maxSize > 0 && c.maxBytes > 0 }

  // -------------------------------------------------------------------------
  // Standstill

  /** The producer waits for a token that nobody will put. */
  predicate Starved(s: State) {
    s.producer.WaitToken? && !s.token && s.ready == [] && (s.consumer.Idle? || s.consumer.Willing?)
  }

  /** The consumer holds the lock and waits for room in the queue that only it empties. */
  predicate SelfBlocked(s: State) {
    s.consumer.Flushing? && s.producer.NoProducer? && s.batch.count > 0 && |s.ready| >= READY_CAPACITY
  }

  lemma StarvedLasts(c: Config, s: State, a: Action)
    requires Starved(s)
    ensures Starved(Step(c, s, a)) && Step(c, s, a).producer == s.producer
  {
  }

  lemma SelfBlockedLasts(c: Config, s: State, a: Action)
    requires SelfBlocked(s)
    ensures Step(c, s, a) == s
  {
    if ByProducer(a) {
      match a {
        case Receive(_) =>
        case _ =>
      }
    } else {
      match a {
        case EndFlush =>
        case _ =>
      }
    }
  }

  predicate Stuck(s: State) { Starved(s) || SelfBlocked(s) }

  /** Neither standstill ever ends, whatever arrives and whoever moves. */
  lemma {:induction false} StuckForever(c: Config, actions: seq<Action>, more: seq<Action>)
    requires Stuck(Run(c, actions))
    ensures Stuck(Run(c, actions + more))
  {
    if more == [] {
      assert actions + more == actions;
    } else {
      var n := |more| - 1;
      assert actions + more == (actions + more[..n]) + [more[n]];
      StuckForever(c, actions, more[..n]);
      RunAppend(c, actions + more[..n], more[n]);
      var s := Run(c, actions + more[..n]);
      if Starved(s) { StarvedLasts(c, s, more[n]); } else { SelfBlockedLasts(c, s, more[n]); }
    }
  }

  /** Everything accepted has been read and checked, and nobody is inside. */
  predicate Drained(s: State) {
    s.chan == [] && s.ready == [] && s.batch.count == 0 && s.producer.NoProducer? && s.consumer.Idle?
  }

  ghost predicate NoReceive(actions: seq<Action>) { forall i :: 0 <= i < |actions| ==> !actions[i].Receive? }

  /** From here the nozzle can still send all it has, without new requests. */
  ghost predicate Drainable(c: Config, actions: seq<Action>) {
    exists more :: NoReceive(more) && Drained(Run(c, actions + more))
  }

  lemma StuckIsNotDrainable(c: Config, actions: seq<Action>)
    requires Stuck(Run(c, actions))
    ensures !Drainable(c, actions)
  {
    forall more ensures !Drained(Run(c, actions + more)) { StuckForever(c, actions, more); }
  }

  // -------------------------------------------------------------------------
  // Where the settings allow it, it happens

  /** One request and a second one behind it starve the producer. */
  lemma SmallLimitStarves(c: Config, q: nat) returns (actions: seq<Action>)
    requires Sensible(c) && TokenRisk(c, q)
    ensures AtLeast(actions, q) && Starved(Run(c, actions))
  {
    var x := Item(UniqueKey("x"), if q <= c.maxBytes then c.maxBytes else q);
    var s;
    actions, s := WriteUndisturbed(c, [], Initial, x);
    actions, s := Go(c, actions, s, Accumulate(false));
    assert s.producer == NoProducer && !s.token;
    actions, s := Go(c, actions, s, Receive(x));
  }

  /** Batches are filled while the consumer is about to flush. */
  predicate Filling(s: State, ready: nat, items: nat, bytes: int, count: nat, size: nat) {
    && s.consumer.Willing? && s.producer.NoProducer? && s.token
    && |s.ready| == ready && |s.chan| == items && s.bytes == bytes && s.batch.count == count && s.batch.size == size
  }

  /** The rest of accumuBatch for a request that has the lock, ending in an unfinished batch. */
  lemma AddItem(c: Config, actions: seq<Action>, s: State, x: Item) returns (more: seq<Action>, r: State)
    requires Run(c, actions) == s && s.producer == WaitToken(x) && s.consumer.Willing? && s.token
    requires |s.chan| < c.maxCount * 10 && s.bytes + x.size < c.maxBytes
    requires s.batch.count + 1 < c.maxCount && s.batch.size + x.size < BatchBytes(c)
    ensures Run(c, more) == r
    ensures Filling(r, |s.ready|, |s.chan| + 1, s.bytes + x.size, s.batch.count + 1, s.batch.size + x.size)
    ensures forall q: nat :: AtLeast(actions, q) ==> AtLeast(more, q)
  {
    more, r := FinishWrite(c, actions, s, x);
    more, r := Go(c, more, r, Accumulate(false));
  }

  /** The same when it completes the batch. */
  lemma AddLast(c: Config, actions: seq<Action>, s: State, x: Item) returns (more: seq<Action>, r: State)
    requires Run(c, actions) == s && s.producer == WaitToken(x) && s.consumer.Willing? && s.token
    requires |s.chan| < c.maxCount * 10 && s.bytes + x.size < c.maxBytes && |s.ready| < READY_CAPACITY
    requires s.batch.count + 1 >= c.maxCount || s.batch.size + x.size >= BatchBytes(c)
    ensures Run(c, more) == r
    ensures Filling(r, |s.ready| + 1, |s.chan| + 1, s.bytes + x.size, 0, 0)
    ensures forall q: nat :: AtLeast(actions, q) ==> AtLeast(more, q)
  {
    more, r := FinishWrite(c, actions, s, x);
    more, r := Go(c, more, r, Accumulate(false));
    assert r.producer.BatchFull? && |r.ready| == |s.ready|;
    more, r := Go(c, more, r, MoveBatch);
  }

  lemma Arrives(c: Config, actions: seq<Action>, s: State, x: Item) returns (more: seq<Action>, r: State)
    requires Run(c, actions) == s && s.producer.NoProducer? && s.consumer.Willing?
    ensures Run(c, more) == r == s.(producer := WaitToken(x))
    ensures forall q: nat :: AtLeast(actions, q) && q <= x.size ==> AtLeast(more, q)
  {
    more, r := Go(c, actions, s, Receive(x));
  }

  lemma Times(n: nat, q: nat)
    requires n > 0
    ensures n * q == (n - 1) * q + q && (n - 1) * q >= 0
  {
  }

  /** A batch full by count: the remaining requests of least size, one after the other. */
  lemma {:induction false} CompleteByCount(c: Config, q: nat, actions: seq<Action>, s: State, x: Item, left: nat)
      returns (more: seq<Action>, r: State)
    requires Run(c, actions) == s && AtLeast(actions, q) && x.size == q
    requires s.producer == WaitToken(x) && s.consumer.Willing? && s.token && |s.ready| < READY_CAPACITY
    requires left > 0 && s.batch.count + left == c.maxCount && s.batch.size + (left - 1) * q < BatchBytes(c)
    requires |s.chan| + left <= c.maxCount * 10 && s.bytes + left * q < c.maxBytes
    ensures Run(c, more) == r && AtLeast(more, q)
    ensures Filling(r, |s.ready| + 1, |s.chan| + left, s.bytes + left * q, 0, 0)
    decreases left
  {
    Times(left, q);
    if left == 1 {
      more, r := AddLast(c, actions, s, x);
    } else {
      Times(left - 1, q);
      more, r := AddItem(c, actions, s, x);
      more, r := Arrives(c, more, r, x);
      more, r := CompleteByCount(c, q, more, r, x, left - 1);
    }
  }

  /** What k batches of the plan hold: the first j full by count, the others by size. */
  function PlanItems(c: Config, j: nat, k: nat): nat {
    if k == 0 then 0 else PlanItems(c, j, k - 1) + (if k - 1 < j then c.maxCount else 1)
  }

  function PlanBytes(c: Config, q: nat, j: nat, k: nat): nat {
    if k == 0 then 0 else PlanBytes(c, q, j, k - 1) + (if k - 1 < j then c.maxCount * q else BatchBytes(c))
  }

  lemma {:induction false} PlanGrows(c: Config, q: nat, j: nat, k: nat, l: nat)
    requires k <= l
    ensures PlanItems(c, j, k) <= PlanItems(c, j, l) && PlanBytes(c, q, j, k) <= PlanBytes(c, q, j, l)
    decreases l
  {
    if k < l { PlanGrows(c, q, j, k, l - 1); }
  }

  lemma {:induction false} PlanFormula(c: Config, q: nat, j: nat, k: nat)
    ensures PlanItems(c, j, k) == if k <= j then k * c.maxCount else j * c.maxCount + (k - j)
    ensures PlanBytes(c, q, j, k) ==
            if k <= j then k * (c.maxCount * q) else j * (c.maxCount * q) + (k - j) * BatchBytes(c)
  {
    if k > 0 {
      PlanFormula(c, q, j, k - 1);
      if k <= j {
        Times(k, c.maxCount);
        Times(k, c.maxCount * q);
      } else {
        Times(k - j, BatchBytes(c));
      }
    }
  }

  /** The plan fits: every batch of it can be built, and one request more. */
  lemma PlanFits(c: Config, q: nat, j: nat, k: nat)
    requires FillsQueue(c, q, j) && k <= READY_CAPACITY
    ensures PlanItems(c, j, k) < c.maxCount * 10 && PlanBytes(c, q, j, k) < c.maxBytes
  {
    PlanFormula(c, q, j, READY_CAPACITY);
    PlanGrows(c, q, j, k, READY_CAPACITY);
  }

  predicate Planned(c: Config, q: nat, j: nat) {
    FillsQueue(c, q, j) && c.maxCount >= 2 && q < BatchBytes(c) && (j > 0 ==> (c.maxCount - 1) * q < BatchBytes(c))
  }

  predicate Fits(c: Config, q: nat, j: nat, k: nat) {
    PlanItems(c, j, k) < c.maxCount * 10 && PlanBytes(c, q, j, k) < c.maxBytes
  }

  /** Every batch of the plan can be built, and one request more. */
  ghost predicate Feasible(c: Config, q: nat, j: nat) {
    && c.maxCount >= 2 && q < BatchBytes(c) && (j > 0 ==> (c.maxCount - 1) * q < BatchBytes(c))
    && forall k: nat :: k <= READY_CAPACITY ==> Fits(c, q, j, k)
  }

  lemma PlanIsFeasible(c: Config, q: nat, j: nat)
    requires Planned(c, q, j)
    ensures Feasible(c, q, j)
  {
    forall k: nat | k <= READY_CAPACITY ensures Fits(c, q, j, k) { PlanFits(c, q, j, k); }
  }

  /** The first request of the next batch of the plan. */
  function PlanItem(c: Config, q: nat, j: nat, k: nat): Item {
    Item(UniqueKey("x"), if k < j then q else BatchBytes(c))
  }

  lemma OneBatch(c: Config, q: nat, j: nat, k: nat, actions: seq<Action>, s: State)
      returns (more: seq<Action>, r: State)
    requires Feasible(c, q, j) && k < READY_CAPACITY && Run(c, actions) == s && AtLeast(actions, q)
    requires s.producer == WaitToken(PlanItem(c, q, j, k)) && s.consumer.Willing? && s.token && |s.ready| == k
    requires |s.chan| == PlanItems(c, j, k) && s.bytes == PlanBytes(c, q, j, k) && s.batch.count == 0 &&
             s.batch.size == 0
    ensures Run(c, more) == r && AtLeast(more, q)
    ensures Filling(r, k + 1, PlanItems(c, j, k + 1), PlanBytes(c, q, j, k + 1), 0, 0)
  {
    assert Fits(c, q, j, k + 1);
    if k < j {
      more, r := CompleteByCount(c, q, actions, s, PlanItem(c, q, j, k), c.maxCount);
    } else {
      more, r := AddLast(c, actions, s, PlanItem(c, q, j, k));
    }
  }

  lemma FirstBatch(c: Config, q: nat, j: nat) returns (actions: seq<Action>, s: State)
    requires Feasible(c, q, j) && c.maxBytes > 0
    ensures Run(c, actions) == s && AtLeast(actions, q) && PlanReached(c, q, j, 1, s)
  {
    actions, s := Go(c, [], Initial, Receive(PlanItem(c, q, j, 0)));
    actions, s := Go(c, actions, s, SeeEmpty);
    assert s == Initial.(producer := WaitToken(PlanItem(c, q, j, 0)), consumer := Willing);
    actions, s := OneBatch(c, q, j, 0, actions, s);
  }

  /** k batches of the plan are ready, and the next one is not begun. */
  predicate PlanReached(c: Config, q: nat, j: nat, k: nat, s: State) {
    Filling(s, k, PlanItems(c, j, k), PlanBytes(c, q, j, k), 0, 0)
  }

  lemma {:induction false} FillQueue(c: Config, q: nat, j: nat, k: nat) returns (actions: seq<Action>, s: State)
    requires Feasible(c, q, j) && 1 <= k <= READY_CAPACITY && c.maxBytes > 0
    ensures Run(c, actions) == s && AtLeast(actions, q) && PlanReached(c, q, j, k, s)
  {
    if k == 1 {
      actions, s := FirstBatch(c, q, j);
    } else {
      actions, s := FillQueue(c, q, j, k - 1);
      actions, s := NextBatch(c, q, j, k, actions, s);
    }
  }

  lemma NextBatch(c: Config, q: nat, j: nat, k: nat, actions: seq<Action>, s: State)
      returns (more: seq<Action>, r: State)
    requires Feasible(c, q, j) && 1 <= k <= READY_CAPACITY && Run(c, actions) == s && AtLeast(actions, q)
    requires PlanReached(c, q, j, k - 1, s)
    ensures Run(c, more) == r && AtLeast(more, q) && PlanReached(c, q, j, k, r)
  {
    more, r := Arrives(c, actions, s, PlanItem(c, q, j, k - 1));
    more, r := OneBatch(c, q, j, k - 1, more, r);
  }

  /** If full batches by count are no cheaper than by size, none are needed. */
  lemma PlanExists(c: Config, q: nat) returns (j: nat)
    requires FlushRisk(c, q)
    ensures Planned(c, q, j)
  {
    j :| FillsQueue(c, q, j);
    if j > 0 && (c.maxCount - 1) * q >= BatchBytes(c) {
      NoneByCount(c, q, j);
      j := 0;
    }
  }

  lemma NoneByCount(c: Config, q: nat, j: nat)
    requires FillsQueue(c, q, j) && c.maxCount > 0 && (c.maxCount - 1) * q >= BatchBytes(c)
    ensures FillsQueue(c, q, 0)
  {
    Times(c.maxCount, q);
    Multiples(j, BatchBytes(c), c.maxCount * q);
    Multiples(j, 1, c.maxCount);
    Split(READY_CAPACITY, j, BatchBytes(c));
  }

  lemma Split(n: nat, j: nat, b: nat)
    requires j <= n
    ensures n * b == j * b + (n - j) * b
  {
  }

  lemma Multiples(j: nat, a: nat, b: nat)
    requires a <= b
    ensures j * a <= j * b
  {
    assert j * b == j * a + j * (b - a);
  }

  /** One more request, and the consumer takes the lock. */
  lemma BlockAfter(c: Config, q: nat, actions: seq<Action>, s: State, items: nat, bytes: int)
      returns (more: seq<Action>)
    requires Run(c, actions) == s && AtLeast(actions, q) && Filling(s, READY_CAPACITY, items, bytes, 0, 0)
    requires items < c.maxCount * 10 && bytes < c.maxBytes && c.maxCount >= 2 && q < BatchBytes(c)
    ensures AtLeast(more, q) && SelfBlocked(Run(c, more))
  {
    var x := Item(UniqueKey("x"), q);
    var r;
    more, r := Arrives(c, actions, s, x);
    more, r := FinishWrite(c, more, r, x);
    assert r.producer == Controlled(x) && r.batch == s.batch && r.ready == s.ready && r.consumer.Willing?;
    more, r := Go(c, more, r, Accumulate(false));
    assert r.producer.NoProducer? && r.consumer.Willing? && r.batch.count == 1 && |r.ready| == READY_CAPACITY;
    more, r := Go(c, more, r, BeginFlush);
  }

  /** The consumer finds the queue empty; before it gets the lock, producers fill the queue and begin another batch. */
  lemma FlushBlocksItself(c: Config, q: nat) returns (actions: seq<Action>)
    requires Sensible(c) && FlushRisk(c, q)
    ensures AtLeast(actions, q) && SelfBlocked(Run(c, actions))
  {
    var j := PlanExists(c, q);
    PlanIsFeasible(c, q, j);
    var s;
    actions, s := FillQueue(c, q, j, READY_CAPACITY);
    assert Fits(c, q, j, READY_CAPACITY);
    actions := BlockAfter(c, q, actions, s, PlanItems(c, j, READY_CAPACITY), PlanBytes(c, q, j, READY_CAPACITY));
  }

  // -------------------------------------------------------------------------
  // What the consumer can find after it has seen an empty queue

  ghost predicate AllSized(items: seq<Item>, q: nat) { forall i :: 0 <= i < |items| ==> q <= items[i].size }

  predicate SizedProducer(p: Producer, q: nat) { p.NoProducer? || p.BatchFull? || q <= p.item.size }

  function Front(items: seq<Item>): seq<Item> { if items == [] then [] else items[..|items| - 1] }

  /** A write that has taken its token and is not counted into a finished batch yet. */
  function Pending(p: Producer): nat { if p.NoProducer? || p.WaitToken? then 0 else 1 }

  ghost predicate AllFull(c: Config, ready: seq<Batch>) { forall i :: 0 <= i < |ready| ==> IsFull(c, ready[i]) }

  predicate Looking(cs: Consumer) { cs.Willing? || cs.Flushing? }

  /** Since the consumer looked only producers have moved: batches are full, each took a token, and from the second
      token on nobody was let in above the limit. */
  ghost predicate Quiet(c: Config, s: State, taken: nat) {
    && AllFull(c, s.ready)
    && |s.ready| + Pending(s.producer) <= taken + 1
    && (taken >= 1 ==> (s.token ==> s.bytes < c.maxBytes) && (MidWrite(s.producer) ==> !s.token))
    && (taken >= 2 ==> Sum(Front(s.chan)) < c.maxBytes && (s.producer.HasToken? ==> Sum(s.chan) < c.maxBytes))
  }

  ghost predicate Watched(c: Config, q: nat, s: State, h: Past) {
    && AllSized(s.chan, q) && SizedProducer(s.producer, q)
    && |s.chan| <= c.maxCount * 10
    && (s.producer.BatchFull? ==> IsFull(c, s.batch))
    && (Looking(s.consumer) ==> Quiet(c, s, h.taken))
  }

  lemma {:induction false} SumConcat(a: seq<Item>, b: seq<Item>)
    ensures Sum(a + b) == Sum(a) + Sum(b)
  {
    if a == [] {
      assert a + b == b;
    } else {
      SumConcat(a[1..], b);
      assert (a + b)[1..] == a[1..] + b;
    }
  }

  lemma FrontSum(items: seq<Item>)
    ensures Sum(Front(items)) <= Sum(items)
  {
    if items != [] {
      assert items == Front(items) + [items[|items| - 1]];
      SumAppend(Front(items), items[|items| - 1]);
    }
  }

  lemma QueuedBytes(c: Config, s: State)
    requires Inv(c, s) && !s.producer.Written? && !s.consumer.Busy?
    ensures s.bytes == Sum(s.chan)
  {
  }

  lemma TakeTokenWatched(c: Config, q: nat, s: State, h: Past)
    requires Inv(c, s) && Watched(c, q, s, h)
    ensures Watched(c, q, TakeTokenStep(s), PastStep(s, h, TakeToken))
  {
    if Looking(s.consumer) && s.producer.WaitToken? {
      QueuedBytes(c, s);
      FrontSum(s.chan);
    }
  }

  lemma WriteWatched(c: Config, q: nat, s: State, h: Past)
    requires Watched(c, q, s, h)
    ensures Watched(c, q, WriteStep(c, s), PastStep(s, h, Write))
  {
    if s.producer.HasToken? { assert Front(s.chan + [s.producer.item]) == s.chan; }
  }

  lemma MoveWatched(c: Config, q: nat, s: State, h: Past)
    requires Watched(c, q, s, h)
    ensures Watched(c, q, MoveBatchStep(s), PastStep(s, h, MoveBatch))
  {
  }

  lemma AccumulateWatched(c: Config, q: nat, s: State, h: Past, big: bool)
    requires Watched(c, q, s, h)
    ensures Watched(c, q, AccumulateStep(c, s, big), PastStep(s, h, Accumulate(big)))
  {
  }

  lemma PutWatched(c: Config, q: nat, s: State, h: Past)
    requires Watched(c, q, s, h) && TokenKnown(c, s, h)
    ensures Watched(c, q, ProducerPutStep(s), PastStep(s, h, ProducerPut))
  {
  }

  lemma ProducerWatched(c: Config, q: nat, s: State, h: Past, a: Action)
    requires Inv(c, s) && Watched(c, q, s, h) && TokenKnown(c, s, h) && ByProducer(a) &&
             (a.Receive? ==> q <= a.item.size)
    ensures Watched(c, q, ProducerStep(c, s, a), PastStep(s, h, a))
  {
    match a {
      case Receive(_) =>
      case TakeToken => TakeTokenWatched(c, q, s, h);
      case Write => WriteWatched(c, q, s, h);
      case AddBytes =>
      case ProducerLoad =>
      case ProducerPut => PutWatched(c, q, s, h);
      case Accumulate(big) => AccumulateWatched(c, q, s, h, big);
      case MoveBatch => MoveWatched(c, q, s, h);
    }
  }

  lemma BusyWatched(c: Config, q: nat, s: State, h: Past, a: Action)
    requires Watched(c, q, s, h)
    requires a.StartBatch? || a.Fetch? || a.Subtract? || a.ConsumerLoad? || a.ConsumerPut? || a.EndBatch?
    ensures Watched(c, q, ConsumerStep(c, s, a), PastStep(s, h, a))
  {
    match a {
      case StartBatch(_) =>
      case Fetch =>
      case Subtract =>
      case ConsumerLoad =>
      case ConsumerPut =>
      case EndBatch =>
    }
  }

  lemma SeeEmptyWatched(c: Config, q: nat, s: State, h: Past)
    requires Watched(c, q, s, h)
    ensures Watched(c, q, SeeEmptyStep(s), PastStep(s, h, SeeEmpty))
  {
  }

  lemma FlushWatched(c: Config, q: nat, s: State, h: Past)
    requires Watched(c, q, s, h) && (s.consumer.Flushing? ==> s.producer.NoProducer?)
    ensures Watched(c, q, BeginFlushStep(s), h) && Watched(c, q, EndFlushStep(s), h)
  {
  }

  lemma ConsumerWatched(c: Config, q: nat, s: State, h: Past, a: Action)
    requires Inv(c, s) && Watched(c, q, s, h) && !ByProducer(a)
    ensures Watched(c, q, ConsumerStep(c, s, a), PastStep(s, h, a))
  {
    match a {
      case SeeEmpty => SeeEmptyWatched(c, q, s, h);
      case BeginFlush =>
        assert Locks(c, s.batch, s.producer, s.consumer);
        FlushWatched(c, q, s, h);
      case EndFlush =>
        assert Locks(c, s.batch, s.producer, s.consumer);
        FlushWatched(c, q, s, h);
      case _ => BusyWatched(c, q, s, h, a);
    }
  }

  lemma {:induction false} RunWatched(c: Config, q: nat, actions: seq<Action>)
    requires Sensible(c) && AtLeast(actions, q)
    ensures Watched(c, q, Run(c, actions), PastOf(c, actions))
  {
    if actions != [] {
      var front, a := actions[..|actions| - 1], actions[|actions| - 1];
      assert AtLeast(front, q);
      RunWatched(c, q, front);
      RunKeeps(c, front);
      RunTokenKnown(c, front);
      if ByProducer(a) {
        ProducerWatched(c, q, Run(c, front), PastOf(c, front), a);
      } else {
        ConsumerWatched(c, q, Run(c, front), PastOf(c, front), a);
      }
    }
  }

  // -------------------------------------------------------------------------
  // A self-blocked consumer needs the risk

  lemma {:induction false} SumAtLeast(items: seq<Item>, q: nat)
    requires AllSized(items, q)
    ensures Sum(items) >= |items| * q
  {
    if items != [] {
      SumAtLeast(items[1..], q);
      Times(|items|, q);
    }
  }

  /** A full batch takes as many requests as the count, or as many bytes as the size. */
  lemma FullBatchTakes(c: Config, q: nat, b: Batch)
    requires Sensible(c) && WellCounted(b) && IsFull(c, b) && AllSized(b.items, q)
    ensures if b.count >= c.maxCount then |b.items| >= c.maxCount && Sum(b.items) >= c.maxCount * q
            else |b.items| >= 1 && Sum(b.items) >= BatchBytes(c)
  {
    if b.count >= c.maxCount {
      SumAtLeast(b.items, q);
      Multiples(q, c.maxCount, |b.items|);
    } else {
      assert b.items != [];
    }
  }

  lemma FirstOfFlat(ready: seq<Batch>, q: nat)
    requires ready != [] && AllSized(Flat(ready), q)
    ensures AllSized(ready[0].items, q) && AllSized(Flat(ready[1..]), q)
    ensures |Flat(ready)| == |ready[0].items| + |Flat(ready[1..])|
    ensures Sum(Flat(ready)) == Sum(ready[0].items) + Sum(Flat(ready[1..]))
  {
    SumConcat(ready[0].items, Flat(ready[1..]));
    SizedParts(ready[0].items, Flat(ready[1..]), q);
  }

  lemma SizedParts(a: seq<Item>, b: seq<Item>, q: nat)
    requires AllSized(a + b, q)
    ensures AllSized(a, q) && AllSized(b, q)
  {
    forall i | 0 <= i < |a| ensures q <= a[i].size { assert (a + b)[i] == a[i]; }
    forall i | 0 <= i < |b| ensures q <= b[i].size { assert (a + b)[|a| + i] == b[i]; }
  }

  /** Full batches take at least what the cheapest mix of the two kinds takes. */
  lemma {:induction false} FullBatchesTake(c: Config, q: nat, ready: seq<Batch>) returns (j: nat)
    requires Sensible(c) && AllCounted(ready) && AllFull(c, ready) && AllSized(Flat(ready), q)
    ensures j <= |ready|
    ensures |Flat(ready)| >= j * c.maxCount + (|ready| - j)
    ensures Sum(Flat(ready)) >= j * (c.maxCount * q) + (|ready| - j) * BatchBytes(c)
  {
    if ready == [] {
      j := 0;
    } else {
      FirstOfFlat(ready, q);
      FullBatchTakes(c, q, ready[0]);
      j := FullBatchesTake(c, q, ready[1..]);
      if ready[0].count >= c.maxCount {
        PlusOne(j, c.maxCount, c.maxCount * q);
        j := j + 1;
      } else {
        PlusOne(|ready| - 1 - j, 1, BatchBytes(c));
      }
    }
  }

  lemma PlusOne(j: nat, m: nat, b: nat)
    ensures (j + 1) * m == j * m + m && (j + 1) * b == j * b + b
  {
  }

  /** What lies in front of the last request: the ready batches and the rest of the current one. */
  lemma QueueInFront(chan: seq<Item>, queued: seq<Item>, last: seq<Item>, q: nat)
    requires chan == queued + last && last != [] && AllSized(chan, q)
    ensures Sum(queued) <= Sum(Front(chan)) && |queued| < |chan| && AllSized(queued, q) && AllSized(last, q)
  {
    var front := last[..|last| - 1];
    assert Front(chan) == queued + front;
    SumConcat(queued, front);
    SizedParts(queued, last, q);
  }

  lemma SelfBlockedNeedsRisk(c: Config, q: nat, s: State, h: Past)
    requires Sensible(c) && Inv(c, s) && Watched(c, q, s, h) && SelfBlocked(s)
    ensures FlushRisk(c, q)
  {
    var queued, last := Flat(s.ready), s.batch.items;
    assert s.chan == queued + last by { assert Unread(s.consumer) + queued + last + [] == queued + last; }
    QueueInFront(s.chan, queued, last, q);
    var j := FullBatchesTake(c, q, s.ready);
    assert FillsQueue(c, q, j);
    LastBatchSmall(c, q, s.batch);
  }

  /** A batch that is neither empty nor full. */
  lemma LastBatchSmall(c: Config, q: nat, b: Batch)
    requires WellCounted(b) && b.count > 0 && !IsFull(c, b) && AllSized(b.items, q)
    ensures c.maxCount >= 2 && q < BatchBytes(c)
  {
    assert q <= b.items[0].size;
  }

  // -------------------------------------------------------------------------
  // Draining

  /** What a busy consumer does next. */
  function NextRead(cs: Consumer): Action
    requires cs.Busy?
  {
    match cs.stage
    case Between => if cs.read < cs.batch.count then Fetch else EndBatch
    case Fetched(_) => Subtract
    case Subtracted(_) => ConsumerLoad
    case Puts(_) => ConsumerPut
  }

  /** What the producer in the lock does next. */
  function NextWrite(p: Producer): Action
    requires !p.NoProducer?
  {
    match p
    case WaitToken(_) => TakeToken
    case HasToken(_) => Write
    case Written(_) => AddBytes
    case Added(_) => ProducerLoad
    case WillPut(_) => ProducerPut
    case Controlled(_) => Accumulate(false)
    case BatchFull => MoveBatch
  }

  /** The consumer first; a producer moves only while there is nothing to take. */
  function Next(s: State): Action {
    match s.consumer
    case Busy(_, _, _, _) => NextRead(s.consumer)
    case Willing => BeginFlush
    case Flushing => EndFlush
    case Idle =>
      if s.ready != [] then StartBatch(map[])
      else if s.producer.NoProducer? then SeeEmpty
      else NextWrite(s.producer)
  }

  function ProducerWeight(p: Producer): nat {
    match p
    case NoProducer => 0
    case BatchFull => 11
    case Controlled(_) => 12
    case WillPut(_) => 13
    case Added(_) => 14
    case Written(_) => 15
    case HasToken(_) => 29
    case WaitToken(_) => 30
  }

  function StageWeight(cs: Consumer): nat {
    if !cs.Busy? then 0
    else match cs.stage
      case Between => 0
      case Fetched(_) => 4
      case Subtracted(_) => 3
      case Puts(_) => 2
  }

  /** An idle consumer that has to flush has more to do than one that has not. */
  function IdleWeight(alone: bool, count: nat): nat { if alone && count > 0 then 5 else 0 }

  function ConsumerWeight(cs: Consumer, alone: bool, count: nat): nat {
    match cs
    case Idle => IdleWeight(alone, count)
    case Busy(_, _, _, _) => IdleWeight(alone, count) + 1
    case Willing => if !alone then 1 else if count > 0 then 4 else 2
    case Flushing => if count > 0 then 3 else 1
  }

  /** Bounds the operations that are left. */
  function Work(s: State): nat {
    ProducerWeight(s.producer) + 5 * |s.chan| + StageWeight(s.consumer) + 2 * |s.ready| +
    ConsumerWeight(s.consumer, s.producer.NoProducer?, s.batch.count)
  }

  lemma BusyWorks(c: Config, s: State)
    requires s.consumer.Busy? && s.consumer.read <= s.consumer.batch.count
    requires s.consumer.stage.Between? && s.consumer.read < s.consumer.batch.count ==> s.chan != []
    ensures Work(ConsumerStep(c, s, NextRead(s.consumer))) < Work(s)
  {
    match s.consumer.stage {
      case Between =>
      case Fetched(_) =>
      case Subtracted(_) =>
      case Puts(_) =>
    }
  }

  lemma ProducerWorks(c: Config, s: State)
    requires s.consumer.Idle? && s.ready == [] && !s.producer.NoProducer?
    requires (s.producer.WaitToken? ==> s.token) && (s.producer.HasToken? ==> |s.chan| < c.maxCount * 10)
    ensures Work(ProducerStep(c, s, NextWrite(s.producer))) < Work(s)
  {
    match s.producer {
      case WaitToken(_) =>
      case HasToken(_) =>
      case Written(_) =>
      case Added(_) =>
      case WillPut(_) =>
      case Controlled(_) =>
      case BatchFull =>
    }
  }

  lemma FlushWorks(c: Config, s: State)
    requires Looking(s.consumer) && !SelfBlocked(s) && (s.consumer.Flushing? ==> s.producer.NoProducer?)
    ensures Work(ConsumerStep(c, s, Next(s))) < Work(s)
  {
  }

  lemma IdleWorks(c: Config, s: State)
    requires s.consumer.Idle? && (s.ready != [] || (s.producer.NoProducer? && s.batch.count > 0))
    ensures Work(ConsumerStep(c, s, Next(s))) < Work(s)
  {
  }

  /** With an empty queue and nothing in progress, the channel is the current batch. */
  lemma OnlyCurrentBatch(c: Config, s: State)
    requires Inv(c, s) && !s.consumer.Busy? && s.ready == [] && InFlight(s.producer) == []
    ensures s.chan == s.batch.items && s.batch.count == |s.chan| && s.batch.size == Sum(s.chan)
  {
    assert [] + [] + s.batch.items + [] == s.batch.items;
  }

  lemma BusyFits(c: Config, s: State)
    requires Inv(c, s) && s.consumer.Busy?
    ensures s.consumer.read <= s.consumer.batch.count
    ensures s.consumer.stage.Between? && s.consumer.read < s.consumer.batch.count ==> s.chan != []
  {
    if s.consumer.stage.Between? && s.consumer.read < s.consumer.batch.count { HeadIsNext(c, s); }
  }

  /** Every state that is neither drained nor at a standstill has a next operation, and it leaves less to do. */
  lemma UnstuckWorks(c: Config, s: State)
    requires Sensible(c) && Inv(c, s) && !Stuck(s) && !Drained(s)
    ensures Work(Step(c, s, Next(s))) < Work(s) && !Next(s).Receive?
  {
    if s.consumer.Busy? {
      BusyFits(c, s);
      BusyWorks(c, s);
    } else if Looking(s.consumer) {
      assert Locks(c, s.batch, s.producer, s.consumer);
      FlushWorks(c, s);
    } else if s.ready != [] {
      IdleWorks(c, s);
    } else if s.producer.NoProducer? {
      OnlyCurrentBatch(c, s);
      IdleWorks(c, s);
    } else {
      if s.producer.HasToken? { RoomForOne(c, s); }
      ProducerWorks(c, s);
    }
  }

  lemma RoomForOne(c: Config, s: State)
    requires Sensible(c) && Inv(c, s) && s.consumer.Idle? && s.ready == [] && s.producer.HasToken?
    ensures |s.chan| < c.maxCount * 10
  {
    OnlyCurrentBatch(c, s);
  }

  /** A starved producer needs the risk. */
  lemma StarvedNeedsRisk(c: Config, q: nat, s: State)
    requires Sensible(c) && Inv(c, s) && AllSized(s.chan, q) && Starved(s)
    ensures TokenRisk(c, q)
  {
    OnlyCurrentBatch(c, s);
    QueuedBytes(c, s);
    assert s.bytes >= c.maxBytes;
    LastBatchSmall(c, q, s.batch);
  }

  /** A standstill is only reached where the settings have one of the risks. */
  lemma {:induction false} StuckNeedsRisk(c: Config, q: nat, actions: seq<Action>)
    requires Sensible(c) && AtLeast(actions, q) && Stuck(Run(c, actions))
    ensures TokenRisk(c, q) || FlushRisk(c, q)
  {
    RunKeeps(c, actions);
    RunWatched(c, q, actions);
    var s := Run(c, actions);
    if Starved(s) { StarvedNeedsRisk(c, q, s); } else { SelfBlockedNeedsRisk(c, q, s, PastOf(c, actions)); }
  }

  lemma DrainedNow(c: Config, actions: seq<Action>)
    requires Drained(Run(c, actions))
    ensures Drainable(c, actions)
  {
    assert actions + [] == actions;
    assert NoReceive([]) && Drained(Run(c, actions + []));
  }

  lemma DrainableBefore(c: Config, actions: seq<Action>, a: Action)
    requires !a.Receive? && Drainable(c, actions + [a])
    ensures Drainable(c, actions)
  {
    var more :| NoReceive(more) && Drained(Run(c, actions + [a] + more));
    assert actions + [a] + more == actions + ([a] + more);
    assert NoReceive([a] + more);
  }

  /** Without the two risks the schedule drains the nozzle from every reachable state. */
  lemma {:induction false} Drains(c: Config, q: nat, actions: seq<Action>)
    requires Sensible(c) && AtLeast(actions, q) && !TokenRisk(c, q) && !FlushRisk(c, q)
    ensures Drainable(c, actions)
    decreases Work(Run(c, actions))
  {
    var s := Run(c, actions);
    if Drained(s) {
      DrainedNow(c, actions);
    } else {
      RunKeeps(c, actions);
      if Stuck(s) { StuckNeedsRisk(c, q, actions); }
      UnstuckWorks(c, s);
      RunAppend(c, actions, Next(s));
      Drains(c, q, actions + [Next(s)]);
      DrainableBefore(c, actions, Next(s));
    }
  }

  /** The exact condition: with requests of at least q bytes the nozzle can, from every state of every run, still send
      all it has accepted if and only if neither risk is in its settings. */
  lemma DrainableIff(c: Config, q: nat)
    requires Sensible(c)
    ensures (forall actions :: AtLeast(actions, q) ==> Drainable(c, actions)) <==> !TokenRisk(c, q) && !FlushRisk(c, q)
  {
    if TokenRisk(c, q) {
      var actions := SmallLimitStarves(c, q);
      StuckIsNotDrainable(c, actions);
    } else if FlushRisk(c, q) {
      var actions := FlushBlocksItself(c, q);
      StuckIsNotDrainable(c, actions);
    } else {
      forall actions | AtLeast(actions, q) ensures Drainable(c, actions) { Drains(c, q, actions); }
    }
  }

  /** In every run: as long as no standstill is reached there is a next operation, and it leaves less to do. */
  lemma {:induction false} MovesUnlessStuck(c: Config, actions: seq<Action>)
    requires Sensible(c)
    ensures var s := Run(c, actions);
            Stuck(s) || Drained(s) || Work(Step(c, s, Next(s))) < Work(s)
  {
    RunKeeps(c, actions);
    var s := Run(c, actions);
    if !Stuck(s) && !Drained(s) { UnstuckWorks(c, s); }
  }

  // -------------------------------------------------------------------------
  // The settings in use

  /** With the default settings neither risk is there, whatever the size of the requests. */
  lemma DefaultsDrain(actions: seq<Action>)
    ensures Drainable(Config(500, 2048, 10 * 1024 * 1024), actions)
  {
    var c := Config(500, 2048, 10 * 1024 * 1024);
    assert forall j: nat :: FillsQueue(c, 0, j) ==> j <= 9;
    Drains(c, 0, actions);
  }

  /** With the smallest batch size that the settings allow and all else at its default, the flush can block itself. */
  lemma SmallBatchesBlock() returns (actions: seq<Action>)
    ensures SelfBlocked(Run(Config(500, 10, 10 * 1024 * 1024), actions))
  {
    var c := Config(500, 10, 10 * 1024 * 1024);
    assert FillsQueue(c, 100, 0);
    actions := FlushBlocksItself(c, 100);
  }
}
