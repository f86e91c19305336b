/**
 The data path inside an XMEM nozzle: producers put requests into a FIFO channel
 and count them into the current batch, one consumer takes finished batches off
 a queue and reads as many requests from the channel as the batch counts. Batches
 carry no requests, only counts; a one-token control channel throttles the bytes
 in the data channel.

 Each atomic operation of the source (a channel operation, an atomic add or
 load, a critical section under batch_lock) is one `Action`.
 */
module DataChannel {
  import opened Common

  datatype UniqueKey = UniqueKey(bytes: string)

  datatype Item = Item(uniqueKey: UniqueKey, size: nat)

  datatype Config = Config(maxCount: nat, maxSize: nat, maxBytes: int)

  const READY_CAPACITY: nat := 100

  /** A batch as the nozzle keeps it, and, as history, the requests counted into it and which of them were classified as
      big documents. */
  datatype Batch = Batch(count: nat, size: nat, big: set<UniqueKey>, items: seq<Item>, marks: seq<bool>)

  const EmptyBatch := Batch(0, 0, {}, [], [])

  /** A producer inside accumuBatch; all but `NoProducer` hold batch_lock. */
  datatype Producer =
    | NoProducer
    | WaitToken(item: Item)
    | HasToken(item: Item)      // waits for room in the channel
    | Written(item: Item)       // bytes not added yet
    | Added(item: Item)         // byte count not read yet
    | WillPut(item: Item)       // read a count below the limit
    | Controlled(item: Item)    // not counted into the batch yet
    | BatchFull                 // waits for room in the ready queue

  datatype Stage = Between | Fetched(item: Item) | Subtracted(item: Item) | Puts(item: Item)

  datatype Consumer =
    | Idle
    | Willing                   // saw an empty ready queue, batch_lock not tried yet
    | Flushing                  // holds batch_lock to send an unfinished batch
    | Busy(batch: Batch, read: nat, noRep: map<UniqueKey, bool>, stage: Stage)

  datatype SendStatus = Send | NotSendFailedCR | NotSendOther

  /** History: request number `pos` read for `batch`, what batchGetMeta found for the batch, and what needSend said. */
  datatype Check = Check(item: Item, batch: Batch, pos: nat, noRep: map<UniqueKey, bool>, status: SendStatus)

  datatype State = State(
    chan: seq<Item>,
    bytes: int,
    token: bool,
    batch: Batch,
    ready: seq<Batch>,
    producer: Producer,
    consumer: Consumer,
    received: seq<Item>,        // history: requests put into the channel
    checked: seq<Check>)        // history: requests read and checked

  datatype Action =
    | Receive(item: Item)
    | TakeToken
    | Write
    | AddBytes
    | ProducerLoad
    | ProducerPut
    | Accumulate(big: bool)
    | MoveBatch
    | StartBatch(noRep: map<UniqueKey, bool>)
    | Fetch
    | Subtract
    | ConsumerLoad
    | ConsumerPut
    | EndBatch
    | SeeEmpty
    | BeginFlush
    | EndFlush

  const Initial := State([], 0, true, EmptyBatch, [], NoProducer, Idle, [], [])

  // -------------------------------------------------------------------------
  // The code

  /** dataBatch.accumuBatch. */
  function Accumulated(b: Batch, item: Item, big: bool): Batch {
    Batch(b.count + 1, b.size + item.size, if big then b.big + {item.uniqueKey} else b.big,
          b.items + [item], b.marks + [big])
  }

  predicate IsFull(c: Config, b: Batch) {
    !(b.count < c.maxCount && b.size < c.maxSize * 1000)
  }

  function NeedSend(item: Item, noRep: map<UniqueKey, bool>): SendStatus {
    if item.uniqueKey !in noRep then Send
    else if noRep[item.uniqueKey] then NotSendFailedCR
    else NotSendOther
  }

  // The producer, one function for each operation; an operation that is not next or would block changes nothing.

  function ReceiveStep(s: State, item: Item): State {
    if s.producer.NoProducer? && !s.consumer.Flushing? then s.(producer := WaitToken(item)) else s
  }

  function TakeTokenStep(s: State): State {
    if s.producer.WaitToken? && s.token then s.(token := false, producer := HasToken(s.producer.item)) else s
  }

  function WriteStep(c: Config, s: State): State {
    if s.producer.HasToken? && |s.chan| < c.maxCount * 10
    then s.(chan := s.chan + [s.producer.item], received := s.received + [s.producer.item],
        producer := Written(s.producer.item))
    else s
  }

  function AddBytesStep(s: State): State {
    if s.producer.Written? then s.(bytes := s.bytes + s.producer.item.size, producer := Added(s.producer.item)) else s
  }

  function ProducerLoadStep(c: Config, s: State): State {
    if s.producer.Added?
    then s.(producer := if s.bytes < c.maxBytes then WillPut(s.producer.item) else Controlled(s.producer.item))
    else s
  }

  function ProducerPutStep(s: State): State {
    if s.producer.WillPut? then s.(token := true, producer := Controlled(s.producer.item)) else s
  }

  function AccumulateStep(c: Config, s: State, big: bool): State {
    if s.producer.Controlled? then
      var b := Accumulated(s.batch, s.producer.item, big);
      s.(batch := b, producer := if IsFull(c, b) then BatchFull else NoProducer)
    else s
  }

  function MoveBatchStep(s: State): State {
    if s.producer.BatchFull? && |s.ready| < READY_CAPACITY
    then s.(ready := s.ready + [s.batch], batch := EmptyBatch, producer := NoProducer)
    else s
  }

  // The consumer.

  function StartBatchStep(s: State, noRep: map<UniqueKey, bool>): State {
    if s.consumer.Idle? && s.ready != [] && noRep.Keys <= s.ready[0].big
    then s.(ready := s.ready[1..], consumer := Busy(s.ready[0], 0, noRep, Between))
    else s
  }

  function FetchStep(s: State): State {
    if s.consumer.Busy? && s.consumer.stage.Between? && s.consumer.read < s.consumer.batch.count && s.chan != []
    then s.(chan := s.chan[1..], consumer := s.consumer.(stage := Fetched(s.chan[0])))
    else s
  }

  function SubtractStep(s: State): State {
    if s.consumer.Busy? && s.consumer.stage.Fetched? then
      var item := s.consumer.stage.item;
      s.(bytes := s.bytes - item.size, consumer := s.consumer.(stage := Subtracted(item)))
    else s
  }

  function ConsumerLoadStep(c: Config, s: State): State {
    if s.consumer.Busy? && s.consumer.stage.Subtracted? then
      if s.bytes < c.maxBytes then s.(consumer := s.consumer.(stage := Puts(s.consumer.stage.item)))
      else Checked(s, s.consumer, s.consumer.stage.item)
    else s
  }

  function ConsumerPutStep(s: State): State {
    if s.consumer.Busy? && s.consumer.stage.Puts?
    then Checked(s.(token := true), s.consumer, s.consumer.stage.item)
    else s
  }

  function EndBatchStep(s: State): State {
    if s.consumer.Busy? && s.consumer.stage.Between? && s.consumer.read == s.consumer.batch.count
    then s.(consumer := Idle)
    else s
  }

  /** The wake-up needs a request in the current batch or a producer in the lock; the queue length is read after it. */
  function SeeEmptyStep(s: State): State {
    if s.consumer.Idle? && s.ready == [] && (s.batch.count > 0 || !s.producer.NoProducer?)
    then s.(consumer := Willing)
    else s
  }

  function BeginFlushStep(s: State): State {
    if s.consumer.Willing? then s.(consumer := if s.producer.NoProducer? then Flushing else Idle) else s
  }

  function EndFlushStep(s: State): State {
    if !s.consumer.Flushing? then s
    else if s.batch.count == 0 then s.(consumer := Idle)
    else if |s.ready| < READY_CAPACITY then s.(ready := s.ready + [s.batch], batch := EmptyBatch, consumer := Idle)
    else s
  }

  /** The read of one request is over: needSend decides. */
  function Checked(s: State, b: Consumer, item: Item): State
    requires b.Busy?
  {
    s.(consumer := b.(stage := Between, read := b.read + 1),
       checked := s.checked + [Check(item, b.batch, b.read, b.noRep, NeedSend(item, b.noRep))])
  }

  function ProducerStep(c: Config, s: State, a: Action): State {
    match a
    case Receive(item) => ReceiveStep(s, item)
    case TakeToken => TakeTokenStep(s)
    case Write => WriteStep(c, s)
    case AddBytes => AddBytesStep(s)
    case ProducerLoad => ProducerLoadStep(c, s)
    case ProducerPut => ProducerPutStep(s)
    case Accumulate(big) => AccumulateStep(c, s, big)
    case MoveBatch => MoveBatchStep(s)
    case _ => s
  }

  function ConsumerStep(c: Config, s: State, a: Action): State {
    match a
    case StartBatch(noRep) => StartBatchStep(s, noRep)
    case Fetch => FetchStep(s)
    case Subtract => SubtractStep(s)
    case ConsumerLoad => ConsumerLoadStep(c, s)
    case ConsumerPut => ConsumerPutStep(s)
    case EndBatch => EndBatchStep(s)
    case SeeEmpty => SeeEmptyStep(s)
    case BeginFlush => BeginFlushStep(s)
    case EndFlush => EndFlushStep(s)
    case _ => s
  }

  predicate ByProducer(a: Action) {
    || a.Receive? || a.TakeToken? || a.Write? || a.AddBytes?
    || a.ProducerLoad? || a.ProducerPut? || a.Accumulate? || a.MoveBatch?
  }

  function Step(c: Config, s: State, a: Action): State {
    if ByProducer(a) then ProducerStep(c, s, a) else ConsumerStep(c, s, a)
  }

  // -------------------------------------------------------------------------
  // The invariant

  function Sum(items: seq<Item>): nat {
    if items == [] then 0 else items[0].size + Sum(items[1..])
  }

  function Flat(batches: seq<Batch>): seq<Item> {
    if batches == [] then [] else batches[0].items + Flat(batches[1..])
  }

  /** The request that is in the channel but not in a batch. */
  function InFlight(p: Producer): seq<Item> {
    if p.Written? || p.Added? || p.WillPut? || p.Controlled? then [p.item] else []
  }

  /** The request that the consumer took out and has not checked. */
  function InHand(cs: Consumer): seq<Item> {
    if cs.Busy? && !cs.stage.Between? then [cs.stage.item] else []
  }

  function Taken(cs: Consumer): nat
    requires cs.Busy?
  {
    cs.read + |InHand(cs)|
  }

  /** The requests of the batch in progress that are still in the channel. */
  function Unread(cs: Consumer): seq<Item> {
    if cs.Busy? && Taken(cs) <= |cs.batch.items| then cs.batch.items[Taken(cs)..] else []
  }

  /** The unique keys of the requests that were classified as big. */
  function BigKeys(items: seq<Item>, marks: seq<bool>): set<UniqueKey>
    requires |items| == |marks|
  {
    set i | 0 <= i < |items| && marks[i] :: items[i].uniqueKey
  }

  ghost predicate WellCounted(b: Batch) {
    && b.count == |b.items| == |b.marks|
    && b.size == Sum(b.items)
    && b.big == BigKeys(b.items, b.marks)
  }

  /** The channel is the rest of the batch in progress, the ready batches, the current batch, the request in flight. */
  predicate Line(chan: seq<Item>, unread: seq<Item>, ready: seq<Item>, current: seq<Item>, inFlight: seq<Item>) {
    chan == unread + ready + current + inFlight
  }

  /** The bytes in the channel that are not counted yet. */
  function NotAdded(p: Producer): nat { if p.Written? then p.item.size else 0 }

  /** The bytes counted that are not in the channel any more. */
  function NotSubtracted(cs: Consumer): nat { if cs.Busy? && cs.stage.Fetched? then cs.stage.item.size else 0 }

  predicate BytesMatch(bytes: int, chan: seq<Item>, notAdded: nat, notSubtracted: nat) {
    bytes == Sum(chan) - notAdded + notSubtracted
  }

  predicate MidWrite(p: Producer) { p.HasToken? || p.Written? || p.Added? || p.WillPut? }

  predicate MidRead(cs: Consumer) { cs.Busy? && !cs.stage.Between? }

  /** Somebody who saw the count change will still look at it. */
  predicate WillControl(p: Producer, cs: Consumer) {
    MidWrite(p) || (cs.Busy? && (cs.stage.Subtracted? || cs.stage.Puts?))
  }

  predicate NoLostToken(c: Config, bytes: int, token: bool, p: Producer, cs: Consumer) {
    bytes < c.maxBytes ==> token || WillControl(p, cs)
  }

  ghost predicate ConsumerFits(cs: Consumer) {
    cs.Busy? ==>
      && WellCounted(cs.batch)
      && Taken(cs) <= cs.batch.count
      && (!cs.stage.Between? ==> cs.stage.item == cs.batch.items[cs.read])
      && cs.noRep.Keys <= cs.batch.big
  }

  ghost predicate AllCounted(ready: seq<Batch>) { forall i :: 0 <= i < |ready| ==> WellCounted(ready[i]) }

  predicate Locks(c: Config, batch: Batch, p: Producer, cs: Consumer) {
    && (p.BatchFull? || !IsFull(c, batch))
    && (cs.Flushing? ==> p.NoProducer?)
  }

  ghost predicate Batches(batch: Batch, ready: seq<Batch>) {
    WellCounted(batch) && AllCounted(ready) && |ready| <= READY_CAPACITY
  }

  function Items(checks: seq<Check>): seq<Item> {
    if checks == [] then [] else Items(checks[..|checks| - 1]) + [checks[|checks| - 1].item]
  }

  ghost predicate OwnBatch(k: Check) {
    && WellCounted(k.batch)
    && k.pos < |k.batch.items|
    && k.item == k.batch.items[k.pos]
    && k.noRep.Keys <= k.batch.big
    && (k.status == Send <==> k.item.uniqueKey !in k.noRep)
    && (k.status == NotSendFailedCR <==> k.item.uniqueKey in k.noRep && k.noRep[k.item.uniqueKey])
  }

  ghost predicate AllOwn(checked: seq<Check>) { forall i :: 0 <= i < |checked| ==> OwnBatch(checked[i]) }

  /** Requests leave the channel in the order in which they came. */
  predicate InOrder(received: seq<Item>, read: seq<Item>, inHand: seq<Item>, chan: seq<Item>) {
    received == read + inHand + chan
  }

  ghost predicate Inv(c: Config, s: State) {
    && Batches(s.batch, s.ready)
    && ConsumerFits(s.consumer)
    && Locks(c, s.batch, s.producer, s.consumer)
    && Line(s.chan, Unread(s.consumer), Flat(s.ready), s.batch.items, InFlight(s.producer))
    && BytesMatch(s.bytes, s.chan, NotAdded(s.producer), NotSubtracted(s.consumer))
    && NoLostToken(c, s.bytes, s.token, s.producer, s.consumer)
    && InOrder(s.received, Items(s.checked), InHand(s.consumer), s.chan)
    && AllOwn(s.checked)
  }

  lemma {:induction false} SumAppend(xs: seq<Item>, x: Item)
    ensures Sum(xs + [x]) == Sum(xs) + x.size
  {
    if xs != [] {
      SumAppend(xs[1..], x);
      assert (xs + [x])[1..] == xs[1..] + [x];
    }
  }

  lemma {:induction false} FlatAppend(bs: seq<Batch>, b: Batch)
    ensures Flat(bs + [b]) == Flat(bs) + b.items
  {
    if bs == [] {
      assert [b][1..] == [];
    } else {
      FlatAppend(bs[1..], b);
      assert (bs + [b])[1..] == bs[1..] + [b];
    }
  }

  lemma ItemsAppend(ks: seq<Check>, k: Check)
    ensures Items(ks + [k]) == Items(ks) + [k.item]
  {
    assert (ks + [k])[..|ks|] == ks;
  }

  // -------------------------------------------------------------------------
  // Each action keeps the invariant

  lemma WriteLine(chan: seq<Item>, unread: seq<Item>, ready: seq<Item>, current: seq<Item>, item: Item)
    requires Line(chan, unread, ready, current, [])
    ensures Line(chan + [item], unread, ready, current, [item])
  {
  }

  lemma WriteOrder(received: seq<Item>, read: seq<Item>, inHand: seq<Item>, chan: seq<Item>, item: Item)
    requires InOrder(received, read, inHand, chan)
    ensures InOrder(received + [item], read, inHand, chan + [item])
  {
  }

  lemma WriteKeeps(c: Config, s: State)
    requires Inv(c, s)
    ensures Inv(c, WriteStep(c, s))
  {
    if s.producer.HasToken? && |s.chan| < c.maxCount * 10 {
      SumAppend(s.chan, s.producer.item);
      WriteLine(s.chan, Unread(s.consumer), Flat(s.ready), s.batch.items, s.producer.item);
      WriteOrder(s.received, Items(s.checked), InHand(s.consumer), s.chan, s.producer.item);
    }
  }

  lemma BigKeysAppend(items: seq<Item>, marks: seq<bool>, item: Item, big: bool)
    requires |items| == |marks|
    ensures BigKeys(items + [item], marks + [big]) ==
            BigKeys(items, marks) + if big then {item.uniqueKey} else {}
  {
    var more, flags := items + [item], marks + [big];
    forall k | k in BigKeys(items, marks) ensures k in BigKeys(more, flags) {
      var i :| 0 <= i < |items| && marks[i] && items[i].uniqueKey == k;
      assert flags[i] && more[i].uniqueKey == k;
    }
    if big { assert flags[|items|] && more[|items|].uniqueKey == item.uniqueKey; }
  }

  lemma AccumulatedCounts(b: Batch, item: Item, big: bool)
    requires WellCounted(b)
    ensures WellCounted(Accumulated(b, item, big))
  {
    SumAppend(b.items, item);
    BigKeysAppend(b.items, b.marks, item, big);
  }

  lemma AccumulateLine(chan: seq<Item>, unread: seq<Item>, ready: seq<Item>, current: seq<Item>, item: Item)
    requires Line(chan, unread, ready, current, [item])
    ensures Line(chan, unread, ready, current + [item], [])
  {
  }

  lemma AccumulateKeeps(c: Config, s: State, big: bool)
    requires Inv(c, s)
    ensures Inv(c, AccumulateStep(c, s, big))
  {
    if s.producer.Controlled? {
      AccumulatedCounts(s.batch, s.producer.item, big);
      AccumulateLine(s.chan, Unread(s.consumer), Flat(s.ready), s.batch.items, s.producer.item);
    }
  }

  /** Moving the current batch to the ready queue leaves the line of requests as it is. */
  lemma MoveLine(chan: seq<Item>, unread: seq<Item>, ready: seq<Batch>, batch: Batch)
    requires Line(chan, unread, Flat(ready), batch.items, [])
    ensures Line(chan, unread, Flat(ready + [batch]), [], [])
  {
    FlatAppend(ready, batch);
    assert unread + Flat(ready) + batch.items == unread + (Flat(ready) + batch.items);
  }

  lemma MoveBatches(batch: Batch, ready: seq<Batch>)
    requires Batches(batch, ready) && |ready| < READY_CAPACITY
    ensures Batches(EmptyBatch, ready + [batch])
  {
  }

  lemma MoveBatchKeeps(c: Config, s: State)
    requires Inv(c, s) && c.maxCount > 0 && c.maxSize > 0
    ensures Inv(c, MoveBatchStep(s))
  {
    if s.producer.BatchFull? && |s.ready| < READY_CAPACITY {
      MoveLine(s.chan, Unread(s.consumer), s.ready, s.batch);
      MoveBatches(s.batch, s.ready);
    }
  }

  lemma ReceiveKeeps(c: Config, s: State, item: Item)
    requires Inv(c, s)
    ensures Inv(c, ReceiveStep(s, item))
  {
  }

  lemma TakeTokenKeeps(c: Config, s: State)
    requires Inv(c, s)
    ensures Inv(c, TakeTokenStep(s))
  {
  }

  lemma AddBytesKeeps(c: Config, s: State)
    requires Inv(c, s)
    ensures Inv(c, AddBytesStep(s))
  {
  }

  lemma ProducerLoadKeeps(c: Config, s: State)
    requires Inv(c, s)
    ensures Inv(c, ProducerLoadStep(c, s))
  {
  }

  lemma ProducerPutKeeps(c: Config, s: State)
    requires Inv(c, s)
    ensures Inv(c, ProducerPutStep(s))
  {
  }

  lemma ProducerKeeps(c: Config, s: State, a: Action)
    requires Inv(c, s) && ByProducer(a) && c.maxCount > 0 && c.maxSize > 0
    ensures Inv(c, ProducerStep(c, s, a))
  {
    match a {
      case Receive(item) => ReceiveKeeps(c, s, item);
      case TakeToken => TakeTokenKeeps(c, s);
      case Write => WriteKeeps(c, s);
      case AddBytes => AddBytesKeeps(c, s);
      case ProducerLoad => ProducerLoadKeeps(c, s);
      case ProducerPut => ProducerPutKeeps(c, s);
      case Accumulate(big) => AccumulateKeeps(c, s, big);
      case MoveBatch => MoveBatchKeeps(c, s);
    }
  }

  lemma StartLine(chan: seq<Item>, ready: seq<Batch>, current: seq<Item>, inFlight: seq<Item>)
    requires ready != [] && Line(chan, [], Flat(ready), current, inFlight)
    ensures Line(chan, ready[0].items, Flat(ready[1..]), current, inFlight)
  {
    assert [] + Flat(ready) == ready[0].items + Flat(ready[1..]);
  }

  lemma StartFits(ready: seq<Batch>, noRep: map<UniqueKey, bool>)
    requires AllCounted(ready) && ready != [] && noRep.Keys <= ready[0].big
    ensures ConsumerFits(Busy(ready[0], 0, noRep, Between)) &&
            Unread(Busy(ready[0], 0, noRep, Between)) == ready[0].items
    ensures AllCounted(ready[1..])
  {
    assert WellCounted(ready[0]);
  }

  lemma StartBatchKeeps(c: Config, s: State, noRep: map<UniqueKey, bool>)
    requires Inv(c, s)
    ensures Inv(c, StartBatchStep(s, noRep))
  {
    if s.consumer.Idle? && s.ready != [] && noRep.Keys <= s.ready[0].big {
      StartLine(s.chan, s.ready, s.batch.items, InFlight(s.producer));
      StartFits(s.ready, noRep);
    }
  }

  lemma FetchUnread(cs: Consumer, item: Item)
    requires ConsumerFits(cs) && cs.Busy? && cs.stage.Between? && cs.read < cs.batch.count
    ensures Unread(cs) == [cs.batch.items[cs.read]] + Unread(cs.(stage := Fetched(item)))
  {
    var after := cs.(stage := Fetched(item));
    assert Taken(cs) == cs.read && Taken(after) == cs.read + 1;
  }

  lemma FetchLine(chan: seq<Item>, first: Item, unread: seq<Item>, ready: seq<Item>, current: seq<Item>,
                  inFlight: seq<Item>)
    requires Line(chan, [first] + unread, ready, current, inFlight)
    ensures chan != [] && chan[0] == first && Line(chan[1..], unread, ready, current, inFlight)
  {
    assert chan == [first] + (unread + ready + current + inFlight);
  }

  lemma FetchOrder(received: seq<Item>, read: seq<Item>, chan: seq<Item>)
    requires chan != [] && InOrder(received, read, [], chan)
    ensures InOrder(received, read, [chan[0]], chan[1..])
  {
    assert chan == [chan[0]] + chan[1..];
  }

  /** The next request of a batch in progress is at the head of the channel. */
  lemma HeadIsNext(c: Config, s: State)
    requires Inv(c, s) && s.consumer.Busy? && s.consumer.stage.Between? && s.consumer.read < s.consumer.batch.count
    ensures s.chan != [] && s.chan[0] == s.consumer.batch.items[s.consumer.read]
    ensures Line(s.chan[1..], Unread(s.consumer.(stage := Fetched(s.chan[0]))), Flat(s.ready), s.batch.items,
            InFlight(s.producer))
  {
    var first := s.consumer.batch.items[s.consumer.read];
    FetchUnread(s.consumer, first);
    FetchLine(s.chan, first, Unread(s.consumer.(stage := Fetched(first))), Flat(s.ready), s.batch.items,
        InFlight(s.producer));
  }

  lemma FetchKeeps(c: Config, s: State)
    requires Inv(c, s)
    ensures Inv(c, FetchStep(s))
  {
    if s.consumer.Busy? && s.consumer.stage.Between? && s.consumer.read < s.consumer.batch.count {
      HeadIsNext(c, s);
      FetchOrder(s.received, Items(s.checked), s.chan);
    }
  }

  /** Another stage of the same read. */
  lemma SameRead(cs: Consumer, stage: Stage)
    requires ConsumerFits(cs) && cs.Busy? && !cs.stage.Between? && !stage.Between? && stage.item == cs.stage.item
    ensures InHand(cs.(stage := stage)) == InHand(cs) && Unread(cs.(stage := stage)) == Unread(cs)
    ensures ConsumerFits(cs.(stage := stage))
  {
  }

  lemma SubtractedBytes(bytes: int, chan: seq<Item>, notAdded: nat, size: nat)
    requires BytesMatch(bytes, chan, notAdded, size)
    ensures BytesMatch(bytes - size, chan, notAdded, 0)
  {
  }

  /** The consumer moves on without touching the channel. */
  lemma ConsumerMoveKeeps(c: Config, s: State, cs: Consumer, bytes: int)
    requires Inv(c, s) && ConsumerFits(cs) && (cs.Flushing? ==> s.producer.NoProducer?)
    requires Unread(cs) == Unread(s.consumer) && InHand(cs) == InHand(s.consumer)
    requires BytesMatch(bytes, s.chan, NotAdded(s.producer), NotSubtracted(cs))
    requires NoLostToken(c, bytes, s.token, s.producer, cs)
    ensures Inv(c, s.(consumer := cs, bytes := bytes))
  {
  }

  lemma SubtractKeeps(c: Config, s: State)
    requires Inv(c, s)
    ensures Inv(c, SubtractStep(s))
  {
    if s.consumer.Busy? && s.consumer.stage.Fetched? {
      var item := s.consumer.stage.item;
      SameRead(s.consumer, Subtracted(item));
      SubtractedBytes(s.bytes, s.chan, NotAdded(s.producer), item.size);
      ConsumerMoveKeeps(c, s, s.consumer.(stage := Subtracted(item)), s.bytes - item.size);
    }
  }

  lemma CheckedOrder(received: seq<Item>, checked: seq<Check>, k: Check, chan: seq<Item>)
    requires InOrder(received, Items(checked), [k.item], chan)
    ensures InOrder(received, Items(checked + [k]), [], chan)
  {
    ItemsAppend(checked, k);
  }

  lemma CheckedOwn(checked: seq<Check>, cs: Consumer)
    requires AllOwn(checked) && ConsumerFits(cs) && MidRead(cs)
    ensures AllOwn(checked + [Check(cs.stage.item, cs.batch, cs.read, cs.noRep, NeedSend(cs.stage.item, cs.noRep))])
  {
    assert OwnBatch(Check(cs.stage.item, cs.batch, cs.read, cs.noRep, NeedSend(cs.stage.item, cs.noRep)));
  }

  lemma CheckedKeeps(c: Config, s: State)
    requires Inv(c, s) && s.consumer.Busy? && (s.consumer.stage.Subtracted? || s.consumer.stage.Puts?)
    requires s.token || s.bytes >= c.maxBytes
    ensures Inv(c, Checked(s, s.consumer, s.consumer.stage.item))
  {
    var cs := s.consumer;
    CheckedOwn(s.checked, cs);
    var check := Check(cs.stage.item, cs.batch, cs.read, cs.noRep, NeedSend(cs.stage.item, cs.noRep));
    CheckedOrder(s.received, s.checked, check, s.chan);
    var after := cs.(stage := Between, read := cs.read + 1);
    assert Taken(after) == Taken(cs) && Unread(after) == Unread(cs);
  }

  lemma ConsumerLoadKeeps(c: Config, s: State)
    requires Inv(c, s)
    ensures Inv(c, ConsumerLoadStep(c, s))
  {
    if s.consumer.Busy? && s.consumer.stage.Subtracted? {
      if s.bytes < c.maxBytes {
        var next := s.consumer.(stage := Puts(s.consumer.stage.item));
        SameRead(s.consumer, Puts(s.consumer.stage.item));
        ConsumerMoveKeeps(c, s, next, s.bytes);
      } else {
        CheckedKeeps(c, s);
      }
    }
  }

  lemma ConsumerPutKeeps(c: Config, s: State)
    requires Inv(c, s)
    ensures Inv(c, ConsumerPutStep(s))
  {
    if s.consumer.Busy? && s.consumer.stage.Puts? { CheckedKeeps(c, s.(token := true)); }
  }

  lemma EndBatchKeeps(c: Config, s: State)
    requires Inv(c, s)
    ensures Inv(c, EndBatchStep(s))
  {
    if s.consumer.Busy? && s.consumer.stage.Between? && s.consumer.read == s.consumer.batch.count {
      assert Unread(s.consumer) == [];
      ConsumerMoveKeeps(c, s, Idle, s.bytes);
    }
  }

  lemma SeeEmptyKeeps(c: Config, s: State)
    requires Inv(c, s)
    ensures Inv(c, SeeEmptyStep(s))
  {
    if s.consumer.Idle? && s.ready == [] && (s.batch.count > 0 || !s.producer.NoProducer?) {
      ConsumerMoveKeeps(c, s, Willing, s.bytes);
    }
  }

  lemma BeginFlushKeeps(c: Config, s: State)
    requires Inv(c, s)
    ensures Inv(c, BeginFlushStep(s))
  {
    if s.consumer.Willing? { ConsumerMoveKeeps(c, s, if s.producer.NoProducer? then Flushing else Idle, s.bytes); }
  }

  lemma EndFlushKeeps(c: Config, s: State)
    requires Inv(c, s) && c.maxCount > 0 && c.maxSize > 0
    ensures Inv(c, EndFlushStep(s))
  {
    if s.consumer.Flushing? && s.batch.count > 0 && |s.ready| < READY_CAPACITY {
      MoveLine(s.chan, [], s.ready, s.batch);
      MoveBatches(s.batch, s.ready);
    }
  }

  lemma ConsumerKeeps(c: Config, s: State, a: Action)
    requires Inv(c, s) && !ByProducer(a) && c.maxCount > 0 && c.maxSize > 0
    ensures Inv(c, ConsumerStep(c, s, a))
  {
    match a {
      case StartBatch(noRep) => StartBatchKeeps(c, s, noRep);
      case Fetch => FetchKeeps(c, s);
      case Subtract => SubtractKeeps(c, s);
      case ConsumerLoad => ConsumerLoadKeeps(c, s);
      case ConsumerPut => ConsumerPutKeeps(c, s);
      case EndBatch => EndBatchKeeps(c, s);
      case SeeEmpty => SeeEmptyKeeps(c, s);
      case BeginFlush => BeginFlushKeeps(c, s);
      case EndFlush => EndFlushKeeps(c, s);
    }
  }

  lemma StepKeeps(c: Config, s: State, a: Action)
    requires Inv(c, s) && c.maxCount > 0 && c.maxSize > 0
    ensures Inv(c, Step(c, s, a))
  {
    if ByProducer(a) { ProducerKeeps(c, s, a); } else { ConsumerKeeps(c, s, a); }
  }

  // -------------------------------------------------------------------------
  // Batches and order, in every run

  function Run(c: Config, actions: seq<Action>): State {
    if actions == [] then Initial
    else Step(c, Run(c, actions[..|actions| - 1]), actions[|actions| - 1])
  }

  lemma RunAppend(c: Config, actions: seq<Action>, a: Action)
    ensures Run(c, actions + [a]) == Step(c, Run(c, actions), a)
  {
    assert (actions + [a])[..|actions|] == actions;
  }

  lemma InitialKeeps(c: Config)
    requires c.maxCount > 0 && c.maxSize > 0
    ensures Inv(c, Initial)
  {
    assert BigKeys([], []) == {};
  }

  lemma {:induction false} RunKeeps(c: Config, actions: seq<Action>)
    requires c.maxCount > 0 && c.maxSize > 0
    ensures Inv(c, Run(c, actions))
  {
    if actions == [] {
      InitialKeeps(c);
    } else {
      RunKeeps(c, actions[..|actions| - 1]);
      StepKeeps(c, Run(c, actions[..|actions| - 1]), actions[|actions| - 1]);
    }
  }

  /** Counts stand for real batches: the channel is always the unread rest of the batch in progress, then the
      ready batches in queue order, then the current batch, then at most one request being added. */
  lemma {:induction false} ChannelIsBatchesInOrder(c: Config, actions: seq<Action>)
    requires c.maxCount > 0 && c.maxSize > 0
    ensures var s := Run(c, actions);
            s.chan == Unread(s.consumer) + Flat(s.ready) + s.batch.items + InFlight(s.producer)
    ensures var s := Run(c, actions);
            s.batch.count == |s.batch.items| &&
                forall i :: 0 <= i < |s.ready| ==> s.ready[i].count == |s.ready[i].items|
  {
    RunKeeps(c, actions);
  }

  /** A full batch gets into the ready queue exactly when fewer than 100 batches wait there; in no run do
      more than 100. */
  lemma {:induction false} QueueHolds100(c: Config, actions: seq<Action>)
    requires c.maxCount > 0 && c.maxSize > 0
    ensures var s := Run(c, actions); var r := Step(c, s, MoveBatch);
            && |s.ready| <= 100
            && (s.producer.BatchFull? ==> (r.producer.NoProducer? <==> |s.ready| < 100))
            && (r != s ==> r.ready == s.ready + [s.batch] && r.batch == EmptyBatch)
  {
    RunKeeps(c, actions);
  }

  /** Every request put into the channel is read and checked once, in order. */
  lemma {:induction false} RequestsCheckedInOrder(c: Config, actions: seq<Action>)
    requires c.maxCount > 0 && c.maxSize > 0
    ensures var s := Run(c, actions);
            s.received == Items(s.checked) + InHand(s.consumer) + s.chan
  {
    RunKeeps(c, actions);
  }

  /** needSend judges each request by the batch it was counted into, at its place in that batch;
      a request is withheld only if that batch holds a big document with its unique key, for which a lookup
      on the target said so, and the reason given is the one found. */
  lemma {:induction false} CheckedAgainstOwnBatch(c: Config, actions: seq<Action>, i: nat)
    requires c.maxCount > 0 && c.maxSize > 0 && i < |Run(c, actions).checked|
    ensures var k := Run(c, actions).checked[i];
            && k.pos < |k.batch.items| && k.item == k.batch.items[k.pos]
            && (k.status == Send <==> k.item.uniqueKey !in k.noRep)
            && (k.status == NotSendFailedCR <==> k.item.uniqueKey in k.noRep && k.noRep[k.item.uniqueKey])
            && k.noRep.Keys <= k.batch.big
            && |k.batch.marks| == |k.batch.items| && k.batch.big == BigKeys(k.batch.items, k.batch.marks)
  {
    RunKeeps(c, actions);
    assert OwnBatch(Run(c, actions).checked[i]);
  }

  // -------------------------------------------------------------------------
  // The byte throttle

  /** The byte counter is the size of the queued requests, up to the request being written or read. */
  lemma {:induction false} BytesAreQueuedBytes(c: Config, actions: seq<Action>)
    requires c.maxCount > 0 && c.maxSize > 0
    ensures var s := Run(c, actions);
            !s.producer.Written? && !(s.consumer.Busy? && s.consumer.stage.Fetched?) ==> s.bytes == Sum(s.chan)
    ensures Run(c, actions).bytes >= 0
  {
    RunKeeps(c, actions);
    var s := Run(c, actions);
    if s.producer.Written? {
      var front := Unread(s.consumer) + Flat(s.ready) + s.batch.items;
      assert s.chan == front + [s.producer.item];
      SumAppend(front, s.producer.item);
    }
  }

  /** No wake-up is lost: below the limit the token is there, unless somebody is about to look. */
  lemma {:induction false} TokenWhenBelowLimit(c: Config, actions: seq<Action>)
    requires c.maxCount > 0 && c.maxSize > 0
    ensures var s := Run(c, actions);
            !MidWrite(s.producer) && !MidRead(s.consumer) && s.bytes < c.maxBytes ==> s.token
  {
    RunKeeps(c, actions);
  }

  /** How much the current permits can still add. */
  function Permitted(s: State, m: nat): nat {
    (if s.token then m else 0) +
    (if s.producer.HasToken? || s.producer.Written? then m else 0) +
    (if s.producer.WillPut? then m else 0) +
    (if s.consumer.Busy? && s.consumer.stage.Puts? then m else 0)
  }

  predicate Holds(p: Producer, m: nat) {
    p.WaitToken? || p.HasToken? || p.Written? ==> p.item.size <= m
  }

  predicate Capped(c: Config, s: State, m: nat) {
    s.bytes + Permitted(s, m) < c.maxBytes + 3 * m && Holds(s.producer, m)
  }

  lemma StepCapped(c: Config, s: State, a: Action, m: nat)
    requires Capped(c, s, m) && (a.Receive? ==> a.item.size <= m)
    ensures Capped(c, Step(c, s, a), m)
  {
    if ByProducer(a) {
      match s.producer {
        case NoProducer =>
        case WaitToken(_) =>
        case HasToken(_) =>
        case Written(_) =>
        case Added(_) =>
        case WillPut(_) =>
        case Controlled(_) =>
        case BatchFull =>
      }
    } else {
      ConsumerCapped(c, s, a, m);
    }
  }

  lemma ConsumerCapped(c: Config, s: State, a: Action, m: nat)
    requires Capped(c, s, m) && !ByProducer(a)
    ensures Capped(c, ConsumerStep(c, s, a), m)
  {
    match s.consumer {
      case Idle =>
      case Willing =>
      case Flushing =>
      case Busy(_, _, _, stage) =>
        match stage {
          case Between =>
          case Fetched(_) =>
          case Subtracted(_) =>
          case Puts(_) =>
        }
    }
  }

  /** What the throttle guarantees: with requests of at most `m` bytes the channel never holds
      as much as the limit plus three requests, in any interleaving. */
  lemma {:induction false} BytesStayBounded(c: Config, actions: seq<Action>, m: nat)
    requires c.maxBytes > 0 && forall i :: 0 <= i < |actions| && actions[i].Receive? ==> actions[i].item.size <= m
    ensures Capped(c, Run(c, actions), m)
    ensures Run(c, actions).bytes < c.maxBytes + 3 * m
  {
    if actions != [] {
      BytesStayBounded(c, actions[..|actions| - 1], m);
      StepCapped(c, Run(c, actions[..|actions| - 1]), actions[|actions| - 1], m);
    }
  }

  /** What the past says about the token: `stale` if it was put by a read that looked at the count before bytes were
      added, `late` if bytes were added since the consumer last looked, and how many tokens were taken since the
      consumer last found the ready queue empty. */
  datatype Past = Past(stale: bool, late: bool, taken: nat)

  function PastStep(s: State, h: Past, a: Action): Past {
    match a
    case TakeToken =>
      if s.producer.WaitToken? && s.token then h.(stale := false, taken := h.taken + 1) else h
    case AddBytes =>
      if s.producer.Written? then h.(stale := h.stale || s.token, late := true) else h
    case ConsumerLoad =>
      if s.consumer.Busy? && s.consumer.stage.Subtracted? then h.(late := false) else h
    case ConsumerPut =>
      if s.consumer.Busy? && s.consumer.stage.Puts? then h.(stale := h.stale || h.late) else h
    case SeeEmpty =>
      if SeeEmptyStep(s) != s then h.(taken := 0) else h
    case _ => h
  }

  function PastOf(c: Config, actions: seq<Action>): Past {
    if actions == [] then Past(false, false, 0)
    else
      var front := actions[..|actions| - 1];
      PastStep(Run(c, front), PastOf(c, front), actions[|actions| - 1])
  }

  predicate TokenKnown(c: Config, s: State, h: Past) {
    && (h.stale ==> s.token)
    && (s.token ==> s.bytes < c.maxBytes || h.stale)
    && (s.producer.WillPut? ==> s.bytes < c.maxBytes)
    && (s.consumer.Busy? && s.consumer.stage.Puts? ==> s.bytes < c.maxBytes || h.late)
  }

  lemma ProducerTokenKnown(c: Config, s: State, h: Past, a: Action)
    requires TokenKnown(c, s, h) && ByProducer(a)
    ensures TokenKnown(c, ProducerStep(c, s, a), PastStep(s, h, a))
  {
    match a {
      case TakeToken =>
      case AddBytes =>
      case ProducerLoad =>
      case ProducerPut =>
      case Accumulate(_) =>
      case _ =>
    }
  }

  lemma ConsumerTokenKnown(c: Config, s: State, h: Past, a: Action)
    requires TokenKnown(c, s, h) && !ByProducer(a)
    ensures TokenKnown(c, ConsumerStep(c, s, a), PastStep(s, h, a))
  {
    match a {
      case Subtract =>
      case ConsumerLoad =>
      case ConsumerPut =>
      case SeeEmpty =>
      case _ =>
    }
  }

  lemma {:induction false} RunTokenKnown(c: Config, actions: seq<Action>)
    requires c.maxBytes > 0
    ensures TokenKnown(c, Run(c, actions), PastOf(c, actions))
  {
    if actions != [] {
      var front, a := actions[..|actions| - 1], actions[|actions| - 1];
      RunTokenKnown(c, front);
      if ByProducer(a) {
        ProducerTokenKnown(c, Run(c, front), PastOf(c, front), a);
      } else {
        ConsumerTokenKnown(c, Run(c, front), PastOf(c, front), a);
      }
    }
  }

  /** The exact rule, in every interleaving: between writes and reads the token is there exactly when the count is
      below the limit, or it was put by a read that looked before bytes were added. */
  lemma {:induction false} TokenIff(c: Config, actions: seq<Action>)
    requires c.maxCount > 0 && c.maxSize > 0 && c.maxBytes > 0
    ensures var s := Run(c, actions);
            !MidWrite(s.producer) && !MidRead(s.consumer) ==>
              (s.token <==> s.bytes < c.maxBytes || PastOf(c, actions).stale)
  {
    RunTokenKnown(c, actions);
    TokenWhenBelowLimit(c, actions);
  }

  predicate Overlap(s: State) { MidWrite(s.producer) && MidRead(s.consumer) }

  /** No write and no read of the channel are under way at the same time. */
  ghost predicate Exclusive(c: Config, actions: seq<Action>) {
    forall n :: 0 <= n <= |actions| ==> !Overlap(Run(c, actions[..n]))
  }

  predicate NeverStale(s: State, h: Past) {
    && !h.stale
    && (MidWrite(s.producer) ==> !s.token)
    && (s.consumer.Busy? && s.consumer.stage.Puts? ==> !h.late)
  }

  lemma StepNeverStale(c: Config, s: State, h: Past, a: Action)
    requires NeverStale(s, h) && !Overlap(s) && !Overlap(Step(c, s, a))
    ensures NeverStale(Step(c, s, a), PastStep(s, h, a))
  {
    match a {
      case TakeToken =>
      case Write =>
      case AddBytes =>
      case ProducerLoad =>
      case ProducerPut =>
      case Accumulate(_) =>
      case Fetch =>
      case Subtract =>
      case ConsumerLoad =>
      case ConsumerPut =>
      case SeeEmpty =>
      case _ =>
    }
  }

  lemma {:induction false} ExclusiveNeverStale(c: Config, actions: seq<Action>)
    requires Exclusive(c, actions)
    ensures NeverStale(Run(c, actions), PastOf(c, actions))
  {
    if actions != [] {
      var front := actions[..|actions| - 1];
      forall n | 0 <= n <= |front| ensures !Overlap(Run(c, front[..n])) {
        assert front[..n] == actions[..n];
      }
      ExclusiveNeverStale(c, front);
      assert actions[..|actions|] == actions && actions[..|front|] == front;
      assert !Overlap(Run(c, actions)) && !Overlap(Run(c, front));
      StepNeverStale(c, Run(c, front), PastOf(c, front), actions[|actions| - 1]);
    }
  }

  /** If writes and reads exclude each other, nothing is ever stale and the token is there exactly when the count is
      below the limit. */
  lemma {:induction false} TokenIffBelowLimit(c: Config, actions: seq<Action>)
    requires c.maxCount > 0 && c.maxSize > 0 && c.maxBytes > 0 && Exclusive(c, actions)
    ensures !PastOf(c, actions).stale
    ensures var s := Run(c, actions);
            !MidWrite(s.producer) && !MidRead(s.consumer) ==> (s.token <==> s.bytes < c.maxBytes)
  {
    ExclusiveNeverStale(c, actions);
    TokenIff(c, actions);
  }

  /** All requests received in the run have at least this size. */
  ghost predicate AtLeast(actions: seq<Action>, q: nat) {
    forall i :: 0 <= i < |actions| && actions[i].Receive? ==> q <= actions[i].item.size
  }

  lemma Go(c: Config, actions: seq<Action>, s: State, a: Action) returns (more: seq<Action>, r: State)
    requires Run(c, actions) == s
    ensures Run(c, more) == r == Step(c, s, a)
    ensures forall q: nat :: AtLeast(actions, q) && (a.Receive? ==> q <= a.item.size) ==> AtLeast(more, q)
  {
    RunAppend(c, actions, a);
    more, r := actions + [a], Step(c, s, a);
  }

  /** The effect of writeToDataChan with nobody in between. */
  function WriteAll(c: Config, s: State, x: Item): State {
    s.(chan := s.chan + [x], bytes := s.bytes + x.size, token := s.bytes + x.size < c.maxBytes,
       received := s.received + [x], producer := Controlled(x))
  }

  /** Taking the lock and the five atomic operations of writeToDataChan in a row have that effect. */
  lemma {:induction false} WriteUndisturbed(c: Config, actions: seq<Action>, s: State, x: Item)
      returns (more: seq<Action>, r: State)
    requires Run(c, actions) == s && s.producer == NoProducer && !s.consumer.Flushing? && s.token
    requires |s.chan| < c.maxCount * 10
    ensures Run(c, more) == r == WriteAll(c, s, x)
    ensures forall q: nat :: AtLeast(actions, q) && q <= x.size ==> AtLeast(more, q)
  {
    more, r := Go(c, actions, s, Receive(x));
    more, r := FinishWrite(c, more, r, x);
  }

  lemma FinishWrite(c: Config, actions: seq<Action>, s: State, x: Item) returns (more: seq<Action>, r: State)
    requires Run(c, actions) == s && s.producer == WaitToken(x) && s.token && |s.chan| < c.maxCount * 10
    ensures Run(c, more) == r == WriteAll(c, s, x)
    ensures forall q: nat :: AtLeast(actions, q) ==> AtLeast(more, q)
  {
    more, r := Go(c, actions, s, TakeToken);
    more, r := Go(c, more, r, Write);
    more, r := Go(c, more, r, AddBytes);
    assert r == WriteAll(c, s, x).(token := false, producer := Added(x));
    more, r := Go(c, more, r, ProducerLoad);
    if r.producer.WillPut? { more, r := Go(c, more, r, ProducerPut); }
  }

  /** readFromDataChan with nobody in between, up to the change of the byte count. */
  lemma FetchUndisturbed(c: Config, actions: seq<Action>, s: State) returns (more: seq<Action>, r: State)
    requires Run(c, actions) == s && s.consumer.Busy? && s.consumer.stage.Between?
    requires s.consumer.read < s.consumer.batch.count && s.chan != []
    ensures Run(c, more) == r
    ensures r == s.(chan := s.chan[1..], bytes := s.bytes - s.chan[0].size,
                    consumer := s.consumer.(stage := Subtracted(s.chan[0])))
  {
    more, r := Go(c, actions, s, Fetch);
    assert r == s.(chan := s.chan[1..], consumer := s.consumer.(stage := Fetched(s.chan[0])));
    more, r := Go(c, more, r, Subtract);
  }

  /** dataChanControl of the consumer with nobody in between, below the limit. */
  lemma ControlUndisturbed(c: Config, actions: seq<Action>, s: State) returns (more: seq<Action>, r: State)
    requires Run(c, actions) == s && s.consumer.Busy? && s.consumer.stage.Subtracted? && s.bytes < c.maxBytes
    ensures Run(c, more) == r
    ensures r.token && !MidRead(r.consumer)
    ensures r == s.(token := true, consumer := r.consumer, checked := r.checked)
  {
    more, r := Go(c, actions, s, ConsumerLoad);
    assert r == s.(consumer := s.consumer.(stage := Puts(s.consumer.stage.item)));
    more, r := Go(c, more, r, ConsumerPut);
  }

  /** One request of 5 bytes written, batched alone and taken by the consumer, with a limit of 10 bytes. */
  lemma OneBatchTaken(x: Item) returns (actions: seq<Action>, s: State)
    requires x.size == 5
    ensures Run(Config(1, 1, 10), actions) == s
    ensures var reading := Busy(Batch(1, 5, {}, [x], [false]), 0, map[], Between);
            s == State([x], 5, true, EmptyBatch, [], NoProducer, reading, [x], [])
  {
    var c := Config(1, 1, 10);
    actions, s := WriteUndisturbed(c, [], Initial, x);
    assert s == State([x], 5, true, EmptyBatch, [], Controlled(x), Idle, [x], []);
    actions, s := Go(c, actions, s, Accumulate(false));
    assert s == State([x], 5, true, Batch(1, 5, {}, [x], [false]), [], BatchFull, Idle, [x], []);
    actions, s := Go(c, actions, s, MoveBatch);
    assert s == State([x], 5, true, EmptyBatch, [Batch(1, 5, {}, [x], [false])], NoProducer, Idle, [x], []);
    actions, s := Go(c, actions, s, StartBatch(map[]));
  }

  /** Without the exclusion the token can be there at or above the limit: a read that ends between a writer's
      taking of the token and its counting of the bytes puts the token back. */
  lemma {:induction false} TokenAboveLimit() returns (actions: seq<Action>)
    ensures var s := Run(Config(1, 1, 10), actions);
            !MidWrite(s.producer) && !MidRead(s.consumer) && s.token && s.bytes >= 10
  {
    var s;
    actions, s := TokenDuringWrite(Item(UniqueKey("x"), 5), Item(UniqueKey("y"), 20));
    var c := Config(1, 1, 10);
    actions, s := Go(c, actions, s, Write);
    assert s.token && s.bytes == 0 && s.producer.Written? && !MidRead(s.consumer);
    actions, s := Go(c, actions, s, AddBytes);
    assert s.token && s.bytes == 20 && s.producer.Added? && !MidRead(s.consumer);
    actions, s := Go(c, actions, s, ProducerLoad);
  }

  lemma TokenDuringWrite(x: Item, y: Item) returns (actions: seq<Action>, s: State)
    requires x.size == 5
    ensures Run(Config(1, 1, 10), actions) == s
    ensures s.producer == HasToken(y) && s.token && s.bytes == 0 && s.chan == [] && !MidRead(s.consumer)
  {
    var c := Config(1, 1, 10);
    actions, s := OneBatchTaken(x);
    actions, s := Go(c, actions, s, Receive(y));
    actions, s := Go(c, actions, s, TakeToken);
    var reading := Busy(Batch(1, 5, {}, [x], [false]), 0, map[], Between);
    assert s == State([x], 5, false, EmptyBatch, [], HasToken(y), reading, [x], []);
    actions, s := FetchUndisturbed(c, actions, s);
    actions, s := ControlUndisturbed(c, actions, s);
  }

  /** The counters of a batch never reach 32 bits, so the unsigned arithmetic of the source does not wrap. */
  lemma {:induction false} BatchCountersFit(c: Config, actions: seq<Action>, m: nat)
    requires 0 < c.maxCount < 0x8000_0000 && 0 < c.maxSize * 1000 < 0x8000_0000 && m < 0x8000_0000
    requires forall i :: 0 <= i < |actions| && actions[i].Receive? ==> actions[i].item.size <= m
    ensures var s := Run(c, actions); s.batch.count <= 0xFFFF_FFFF && s.batch.size <= 0xFFFF_FFFF
  {
    RunFits(c, actions, m);
  }

  predicate Fits(c: Config, s: State, m: nat) {
    && s.batch.count <= c.maxCount && s.batch.size <= c.maxSize * 1000 + m
    && (s.producer.BatchFull? || !IsFull(c, s.batch))
    && (!s.producer.NoProducer? && !s.producer.BatchFull? ==> s.producer.item.size <= m)
  }

  lemma StepFits(c: Config, s: State, a: Action, m: nat)
    requires c.maxCount > 0 && c.maxSize > 0 && Fits(c, s, m) && (a.Receive? ==> a.item.size <= m)
    ensures Fits(c, Step(c, s, a), m)
  {
    if ByProducer(a) {
      match s.producer {
        case NoProducer =>
        case WaitToken(_) =>
        case HasToken(_) =>
        case Written(_) =>
        case Added(_) =>
        case WillPut(_) =>
        case Controlled(_) =>
        case BatchFull =>
      }
    } else {
      match s.consumer {
        case Flushing =>
        case Busy(_, _, _, _) =>
        case _ =>
      }
    }
  }

  lemma {:induction false} RunFits(c: Config, actions: seq<Action>, m: nat)
    requires c.maxCount > 0 && c.maxSize > 0
    requires forall i :: 0 <= i < |actions| && actions[i].Receive? ==> actions[i].item.size <= m
    ensures Fits(c, Run(c, actions), m)
  {
    if actions != [] {
      RunFits(c, actions[..|actions| - 1], m);
      StepFits(c, Run(c, actions[..|actions| - 1]), actions[|actions| - 1], m);
    }
  }

  // -------------------------------------------------------------------------
  // The nozzle object

  /** What a call waits for. */
  datatype Wait = Done | ForToken | ForRoom | ForQueue

  function WriteWaits(c: Config, s: State): Wait {
    if !s.token then ForToken else if |s.chan| >= c.maxCount * 10 then ForRoom else Done
  }

  class Nozzle {
    const c: Config
    var dataChan: seq<Item>
    var bytesInDataChan: int
    var dataChanControl: bool
    var batch: Batch
    var batchesReady: seq<Batch>
    ghost var consumer: Consumer
    ghost var received: seq<Item>
    ghost var checked: seq<Check>

    /** The state with no producer inside accumuBatch. */
    ghost function View(): State
      reads this
    {
      State(dataChan, bytesInDataChan, dataChanControl, batch, batchesReady, NoProducer, consumer, received, checked)
    }

    constructor (c: Config)
      ensures this.c == c && View() == Initial
    {
      this.c := c;
      dataChan, bytesInDataChan, dataChanControl := [], 0, true;
      batch, batchesReady := EmptyBatch, [];
      consumer, received, checked := Idle, [], [];
    }

    /** dataChanControl: put the token if there is room for more bytes. */
    method Control()
      modifies this`dataChanControl
      ensures dataChanControl <==> old(dataChanControl) || bytesInDataChan < c.maxBytes
    {
      if bytesInDataChan < c.maxBytes { dataChanControl := true; }
    }

    /** writeToDataChan, up to the first channel operation that has to wait. */
    method WriteToDataChan(item: Item) returns (w: Wait)
      modifies this`dataChanControl, this`dataChan, this`bytesInDataChan, this`received
      ensures w == WriteWaits(c, old(View()))
      ensures w == ForToken ==> View() == old(View())
      ensures w == ForRoom ==> View() == old(View()).(token := false)
      ensures w == Done ==> View() == WriteAll(c, old(View()), item).(producer := NoProducer)
    {
      if !dataChanControl {
        return ForToken;
      }
      dataChanControl := false;
      if |dataChan| >= c.maxCount * 10 {
        return ForRoom;
      }
      dataChan := dataChan + [item];
      received := received + [item];
      bytesInDataChan := bytesInDataChan + item.size;
      Control();
      w := Done;
    }

    /** batchReady, which waits if the queue is full. */
    method BatchReady() returns (w: Wait)
      modifies this`batch, this`batchesReady
      ensures w == if old(batch).count > 0 && |old(batchesReady)| >= READY_CAPACITY then ForQueue else Done
      ensures if w == Done && old(batch).count > 0
              then batchesReady == old(batchesReady) + [old(batch)] && batch == EmptyBatch
              else batchesReady == old(batchesReady) && batch == old(batch)
    {
      if batch.count > 0 {
        if |batchesReady| >= READY_CAPACITY {
          return ForQueue;
        }
        batchesReady := batchesReady + [batch];
        batch := EmptyBatch;
      }
      w := Done;
    }

    /** accumuBatch, undisturbed, up to the first channel operation that has to wait. */
    method AccumuBatch(item: Item, big: bool) returns (w: Wait)
      modifies this
      ensures WriteWaits(c, old(View())) != Done ==> w == WriteWaits(c, old(View()))
      ensures WriteWaits(c, old(View())) == Done ==>
                && View() == AccumuAll(c, old(View()), item, big).(producer := NoProducer)
                && (w == ForQueue <==> AccumuAll(c, old(View()), item, big).producer.BatchFull?)
    {
      w := WriteToDataChan(item);
      if w != Done {
        return;
      }
      batch := Accumulated(batch, item, big);
      if IsFull(c, batch) {
        w := BatchReady();
      }
    }

    /** readFromDataChan; on an empty channel it waits. */
    method ReadFromDataChan() returns (item: Option<Item>)
      modifies this`dataChan, this`bytesInDataChan, this`dataChanControl
      ensures item == None <==> old(dataChan) == []
      ensures item == None ==> View() == old(View())
      ensures item.Some? ==>
                && old(dataChan) == [item.value] + dataChan
                && bytesInDataChan == old(bytesInDataChan) - item.value.size
                && (dataChanControl <==> old(dataChanControl) || bytesInDataChan < c.maxBytes)
    {
      if dataChan == [] {
        return None;
      }
      item := Some(dataChan[0]);
      dataChan := dataChan[1..];
      bytesInDataChan := bytesInDataChan - item.value.size;
      Control();
    }
  }

  /** The effect of accumuBatch with nobody in between. */
  function AccumuAll(c: Config, s: State, x: Item, big: bool): State {
    ProducerStep(c, ProducerStep(c, WriteAll(c, s, x), Accumulate(big)), MoveBatch)
  }

  lemma WriteAllKeeps(c: Config, s: State, x: Item)
    requires Inv(c, s) && s.producer == NoProducer && s.token && !s.consumer.Flushing?
    ensures Inv(c, WriteAll(c, s, x))
  {
    SumAppend(s.chan, x);
    WriteLine(s.chan, Unread(s.consumer), Flat(s.ready), s.batch.items, x);
    WriteOrder(s.received, Items(s.checked), InHand(s.consumer), s.chan, x);
  }

  /** accumuBatch puts the request last in the channel and in its batch, and moves the batch on exactly when it is
      full. */
  lemma AccumuAllMoves(c: Config, s: State, x: Item, big: bool)
    requires |s.ready| < READY_CAPACITY
    ensures var b := Accumulated(s.batch, x, big); var r := AccumuAll(c, s, x, big);
            && r.chan == s.chan + [x] && r.producer == NoProducer
            && (if IsFull(c, b) then r.ready == s.ready + [b] && r.batch == EmptyBatch
                else r.ready == s.ready && r.batch == b)
  {
  }

  /** The atomic operations of accumuBatch in a row have that effect: the request is last in the channel and in its
      batch, and the batch moves on exactly when it is full. */
  lemma {:induction false} AccumuUndisturbed(c: Config, actions: seq<Action>, s: State, x: Item, big: bool)
      returns (more: seq<Action>, r: State)
    requires Run(c, actions) == s && s.producer == NoProducer && !s.consumer.Flushing? && s.token
    requires |s.chan| < c.maxCount * 10 && |s.ready| < READY_CAPACITY
    ensures Run(c, more) == r == AccumuAll(c, s, x, big)
    ensures var b := Accumulated(s.batch, x, big);
            && r.chan == s.chan + [x] && r.received == s.received + [x] && r.producer == NoProducer
            && (if IsFull(c, b) then r.ready == s.ready + [b] && r.batch == EmptyBatch
                else r.ready == s.ready && r.batch == b)
            && b.count == s.batch.count + 1 && b.size == s.batch.size + x.size
            && (forall u :: u in b.big <==> u in s.batch.big || (big && u == x.uniqueKey))
  {
    more, r := WriteUndisturbed(c, actions, s, x);
    more, r := Go(c, more, r, Accumulate(big));
    more, r := Go(c, more, r, MoveBatch);
    AccumuAllMoves(c, s, x, big);
  }

  lemma AccumuAllKeeps(c: Config, s: State, x: Item, big: bool)
    requires Inv(c, s) && s.producer == NoProducer && s.token && !s.consumer.Flushing?
    requires c.maxCount > 0 && c.maxSize > 0
    ensures Inv(c, AccumuAll(c, s, x, big))
  {
    WriteAllKeeps(c, s, x);
    var w := WriteAll(c, s, x);
    assert w.producer == Controlled(x);
    ProducerKeeps(c, w, Accumulate(big));
    ProducerKeeps(c, ProducerStep(c, w, Accumulate(big)), MoveBatch);
  }
}
