/**
 Which requests a batch asks the target about. Batches are counted, not filled, and the channel is read long after a
 request was classified; still the set of big documents that a request is judged by is that of the requests which were
 classified as big in the stretch of the stream that its batch stands for.
 */
module BigDocuments {
  import opened Common
  import opened DataChannel

  /** A request is classified when it is counted into the current batch. */
  function Classify(marks: seq<bool>, producer: Producer, a: Action): seq<bool> {
    if a.Accumulate? && producer.Controlled? then marks + [a.big] else marks
  }

  /** How the requests of a run were classified, in the order in which they were counted. */
  function Classified(c: Config, actions: seq<Action>): seq<bool> {
    if actions == [] then []
    else
      var front := actions[..|actions| - 1];
      Classify(Classified(c, front), Run(c, front).producer, actions[|actions| - 1])
  }

  /** From a place on, a sequence goes on with the parts of the batch in progress, the ready and the current batch. */
  predicate Ahead<T(==)>(all: seq<T>, at: int, busy: seq<T>, ready: seq<T>, current: seq<T>, rest: seq<T>) {
    0 <= at <= |all| && all[at..] == busy + ready + current + rest
  }

  /** A part of a sequence. */
  predicate Stretch<T(==)>(all: seq<T>, at: int, part: seq<T>) {
    0 <= at && at + |part| <= |all| && all[at..at + |part|] == part
  }

  function FlatMarks(batches: seq<Batch>): seq<bool> {
    if batches == [] then [] else batches[0].marks + FlatMarks(batches[1..])
  }

  function BusyItems(cs: Consumer): seq<Item> { if cs.Busy? then cs.batch.items else [] }

  function BusyMarks(cs: Consumer): seq<bool> { if cs.Busy? then cs.batch.marks else [] }

  /** Where the batch in progress begins, or the next one. */
  function Begin(checked: nat, cs: Consumer): int { if cs.Busy? then checked - cs.read else checked }

  ghost predicate Placed(k: Check, i: nat, received: seq<Item>, marks: seq<bool>) {
    && Stretch(received, i - k.pos, k.batch.items)
    && Stretch(marks, i - k.pos, k.batch.marks)
  }

  ghost predicate AllPlaced(checked: seq<Check>, received: seq<Item>, marks: seq<bool>) {
    forall i :: 0 <= i < |checked| ==> Placed(checked[i], i, received, marks)
  }

  ghost predicate Aligned(s: State, marks: seq<bool>) {
    && Ahead(s.received, Begin(|s.checked|, s.consumer), BusyItems(s.consumer), Flat(s.ready), s.batch.items,
             InFlight(s.producer))
    && Ahead(marks, Begin(|s.checked|, s.consumer), BusyMarks(s.consumer), FlatMarks(s.ready), s.batch.marks, [])
    && AllPlaced(s.checked, s.received, marks)
  }

  // -------------------------------------------------------------------------
  // Each operation keeps the sequences aligned

  lemma AheadGrows<T>(all: seq<T>, at: int, busy: seq<T>, ready: seq<T>, current: seq<T>, x: T)
    requires Ahead(all, at, busy, ready, current, [])
    ensures Ahead(all + [x], at, busy, ready, current, [x])
    ensures Ahead(all + [x], at, busy, ready, current + [x], [])
  {
    assert (all + [x])[at..] == all[at..] + [x];
    assert busy + ready + (current + [x]) == busy + ready + current + [x];
  }

  lemma AheadMoves<T>(all: seq<T>, at: int, busy: seq<T>, ready: seq<T>, current: seq<T>, rest: seq<T>)
    requires Ahead(all, at, busy, ready, current, rest)
    ensures Ahead(all, at, busy, ready + current, [], rest)
    ensures Ahead(all, at, busy, ready, current + rest, [])
  {
    assert busy + (ready + current) + [] == busy + ready + current;
    assert busy + ready + (current + rest) + [] == busy + ready + current + rest;
  }

  lemma AheadStarts<T>(all: seq<T>, at: int, first: seq<T>, ready: seq<T>, current: seq<T>, rest: seq<T>)
    requires Ahead(all, at, [], first + ready, current, rest)
    ensures Ahead(all, at, first, ready, current, rest)
  {
    assert [] + (first + ready) == first + ready;
  }

  lemma AheadEnds<T>(all: seq<T>, at: int, busy: seq<T>, ready: seq<T>, current: seq<T>, rest: seq<T>)
    requires Ahead(all, at, busy, ready, current, rest)
    ensures Ahead(all, at + |busy|, [], ready, current, rest)
    ensures Stretch(all, at, busy)
  {
    var tail := all[at..];
    assert tail == busy + (ready + current + rest);
    assert tail[..|busy|] == all[at..at + |busy|] && tail[|busy|..] == all[at + |busy|..];
    assert [] + ready + current + rest == ready + current + rest;
  }

  lemma StretchStays<T>(all: seq<T>, at: int, part: seq<T>, more: seq<T>)
    requires Stretch(all, at, part)
    ensures Stretch(all + more, at, part)
  {
    assert (all + more)[at..at + |part|] == all[at..at + |part|];
  }

  lemma PlacedStays(checked: seq<Check>, received: seq<Item>, marks: seq<bool>, items: seq<Item>, flags: seq<bool>)
    requires AllPlaced(checked, received, marks)
    ensures AllPlaced(checked, received + items, marks + flags)
  {
    forall i | 0 <= i < |checked| ensures Placed(checked[i], i, received + items, marks + flags) {
      assert Placed(checked[i], i, received, marks);
      StretchStays(received, i - checked[i].pos, checked[i].batch.items, items);
      StretchStays(marks, i - checked[i].pos, checked[i].batch.marks, flags);
    }
  }

  lemma {:induction false} FlatMarksAppend(bs: seq<Batch>, b: Batch)
    ensures FlatMarks(bs + [b]) == FlatMarks(bs) + b.marks
  {
    if bs == [] {
      assert [b][1..] == [];
    } else {
      FlatMarksAppend(bs[1..], b);
      assert (bs + [b])[1..] == bs[1..] + [b];
    }
  }

  lemma WriteAligns(c: Config, s: State, marks: seq<bool>)
    requires Aligned(s, marks)
    ensures Aligned(WriteStep(c, s), marks)
  {
    if s.producer.HasToken? && |s.chan| < c.maxCount * 10 {
      var x := s.producer.item;
      AheadGrows(s.received, Begin(|s.checked|, s.consumer), BusyItems(s.consumer), Flat(s.ready), s.batch.items, x);
      PlacedStays(s.checked, s.received, marks, [x], []);
      assert marks + [] == marks;
    }
  }

  lemma AccumulateAligns(c: Config, s: State, marks: seq<bool>, big: bool)
    requires Aligned(s, marks)
    ensures Aligned(AccumulateStep(c, s, big), if s.producer.Controlled? then marks + [big] else marks)
  {
    if s.producer.Controlled? {
      var at := Begin(|s.checked|, s.consumer);
      AheadMoves(s.received, at, BusyItems(s.consumer), Flat(s.ready), s.batch.items, InFlight(s.producer));
      AheadGrows(marks, at, BusyMarks(s.consumer), FlatMarks(s.ready), s.batch.marks, big);
      PlacedStays(s.checked, s.received, marks, [], [big]);
      assert s.received + [] == s.received;
    }
  }

  /** The current batch goes to the ready queue, moved by a producer or by the consumer's flush. */
  lemma MoveAligns(s: State, marks: seq<bool>, r: State)
    requires Aligned(s, marks) && InFlight(s.producer) == InFlight(r.producer)
    requires r.consumer == s.consumer || (!r.consumer.Busy? && !s.consumer.Busy?)
    requires r.ready == s.ready + [s.batch] && r.batch == EmptyBatch && r.received == s.received
    requires r.checked == s.checked
    ensures Aligned(r, marks)
  {
    var at := Begin(|s.checked|, s.consumer);
    FlatAppend(s.ready, s.batch);
    FlatMarksAppend(s.ready, s.batch);
    AheadMoves(s.received, at, BusyItems(s.consumer), Flat(s.ready), s.batch.items, InFlight(s.producer));
    AheadMoves(marks, at, BusyMarks(s.consumer), FlatMarks(s.ready), s.batch.marks, []);
  }

  lemma StartAligns(s: State, marks: seq<bool>, noRep: map<UniqueKey, bool>)
    requires Aligned(s, marks)
    ensures Aligned(StartBatchStep(s, noRep), marks)
  {
    if s.consumer.Idle? && s.ready != [] && noRep.Keys <= s.ready[0].big {
      var at := |s.checked|;
      AheadStarts(s.received, at, s.ready[0].items, Flat(s.ready[1..]), s.batch.items, InFlight(s.producer));
      AheadStarts(marks, at, s.ready[0].marks, FlatMarks(s.ready[1..]), s.batch.marks, []);
    }
  }

  lemma CheckedAligns(s: State, marks: seq<bool>)
    requires Aligned(s, marks) && s.consumer.Busy? && !s.consumer.stage.Between?
    ensures Aligned(Checked(s, s.consumer, s.consumer.stage.item), marks)
  {
    var cs, at := s.consumer, |s.checked| - s.consumer.read;
    AheadEnds(s.received, at, cs.batch.items, Flat(s.ready), s.batch.items, InFlight(s.producer));
    AheadEnds(marks, at, cs.batch.marks, FlatMarks(s.ready), s.batch.marks, []);
    var k := Check(cs.stage.item, cs.batch, cs.read, cs.noRep, NeedSend(cs.stage.item, cs.noRep));
    assert Placed(k, |s.checked|, s.received, marks);
  }

  lemma EndAligns(s: State, marks: seq<bool>)
    requires Aligned(s, marks) && ConsumerFits(s.consumer)
    ensures Aligned(EndBatchStep(s), marks)
  {
    var cs := s.consumer;
    if cs.Busy? && cs.stage.Between? && cs.read == cs.batch.count {
      var at := |s.checked| - cs.read;
      AheadEnds(s.received, at, cs.batch.items, Flat(s.ready), s.batch.items, InFlight(s.producer));
      AheadEnds(marks, at, cs.batch.marks, FlatMarks(s.ready), s.batch.marks, []);
    }
  }

  /** An operation that neither counts, moves, starts, checks nor ends anything. */
  predicate Quiet(s: State, r: State) {
    && r.received == s.received && r.checked == s.checked && r.ready == s.ready && r.batch == s.batch
    && InFlight(r.producer) == InFlight(s.producer)
    && (if s.consumer.Busy? then r.consumer.Busy? && r.consumer.batch == s.consumer.batch &&
                                 r.consumer.read == s.consumer.read
        else !r.consumer.Busy?)
  }

  lemma QuietAligns(s: State, marks: seq<bool>, r: State)
    requires Aligned(s, marks) && Quiet(s, r)
    ensures Aligned(r, marks)
  {
  }

  lemma ProducerAligns(c: Config, s: State, marks: seq<bool>, a: Action)
    requires Aligned(s, marks) && ByProducer(a) && !a.Accumulate?
    ensures Aligned(ProducerStep(c, s, a), marks)
  {
    match a {
      case Write => WriteAligns(c, s, marks);
      case MoveBatch =>
        if s.producer.BatchFull? && |s.ready| < READY_CAPACITY { MoveAligns(s, marks, MoveBatchStep(s)); }
      case Receive(item) => assert Quiet(s, ReceiveStep(s, item));
      case TakeToken => assert Quiet(s, TakeTokenStep(s));
      case AddBytes => assert Quiet(s, AddBytesStep(s));
      case ProducerLoad => assert Quiet(s, ProducerLoadStep(c, s));
      case ProducerPut => assert Quiet(s, ProducerPutStep(s));
    }
  }

  lemma ReadAligns(c: Config, s: State, marks: seq<bool>)
    requires Aligned(s, marks)
    ensures Aligned(ConsumerLoadStep(c, s), marks) && Aligned(ConsumerPutStep(s), marks)
  {
    if s.consumer.Busy? && s.consumer.stage.Subtracted? {
      if s.bytes < c.maxBytes { assert Quiet(s, ConsumerLoadStep(c, s)); } else { CheckedAligns(s, marks); }
    }
    if s.consumer.Busy? && s.consumer.stage.Puts? { CheckedAligns(s.(token := true), marks); }
  }

  lemma EndFlushAligns(s: State, marks: seq<bool>)
    requires Aligned(s, marks)
    ensures Aligned(EndFlushStep(s), marks)
  {
    if s.consumer.Flushing? && s.batch.count > 0 && |s.ready| < READY_CAPACITY {
      MoveAligns(s, marks, EndFlushStep(s));
    } else {
      assert Quiet(s, EndFlushStep(s));
    }
  }

  lemma ConsumerAligns(c: Config, s: State, marks: seq<bool>, a: Action)
    requires Aligned(s, marks) && ConsumerFits(s.consumer) && !ByProducer(a)
    ensures Aligned(ConsumerStep(c, s, a), marks)
  {
    match a {
      case StartBatch(noRep) => StartAligns(s, marks, noRep);
      case ConsumerLoad => ReadAligns(c, s, marks);
      case ConsumerPut => ReadAligns(c, s, marks);
      case EndBatch => EndAligns(s, marks);
      case EndFlush => EndFlushAligns(s, marks);
      case Fetch => assert Quiet(s, FetchStep(s));
      case Subtract => assert Quiet(s, SubtractStep(s));
      case SeeEmpty => assert Quiet(s, SeeEmptyStep(s));
      case BeginFlush => assert Quiet(s, BeginFlushStep(s));
    }
  }

  lemma StepAligns(c: Config, s: State, marks: seq<bool>, a: Action)
    requires Aligned(s, marks) && ConsumerFits(s.consumer)
    ensures Aligned(Step(c, s, a), Classify(marks, s.producer, a))
  {
    if a.Accumulate? {
      AccumulateAligns(c, s, marks, a.big);
    } else if ByProducer(a) {
      ProducerAligns(c, s, marks, a);
    } else {
      ConsumerAligns(c, s, marks, a);
    }
  }

  lemma RunFits(c: Config, actions: seq<Action>)
    requires c.maxCount > 0 && c.maxSize > 0
    ensures var s := Run(c, actions);
            ConsumerFits(s.consumer) && AllCounted(s.ready) && WellCounted(s.batch) && AllOwn(s.checked)
  {
    RunKeeps(c, actions);
  }

  /** In every run: from the batch in progress on, requests and classifications are those of the batches in order, and
      every request was checked with the batch that stands for its part of the stream. */
  lemma {:induction false} RunAligned(c: Config, actions: seq<Action>)
    requires c.maxCount > 0 && c.maxSize > 0
    ensures Aligned(Run(c, actions), Classified(c, actions))
  {
    if actions != [] {
      var front := actions[..|actions| - 1];
      RunAligned(c, front);
      RunFits(c, front);
      StepAligns(c, Run(c, front), Classified(c, front), actions[|actions| - 1]);
    }
  }

  // -------------------------------------------------------------------------
  // What is looked up

  /** A request in this part of the stream has this key and was classified as big. */
  ghost predicate BigIn(received: seq<Item>, marks: seq<bool>, begin: int, end: int, u: UniqueKey) {
    exists j :: 0 <= begin <= j < end && j < |received| && j < |marks| && marks[j] && received[j].uniqueKey == u
  }

  lemma StretchAt<T>(all: seq<T>, at: int, part: seq<T>, i: nat)
    requires Stretch(all, at, part) && i < |part|
    ensures all[at + i] == part[i]
  {
    assert all[at..at + |part|][i] == all[at + i];
  }

  lemma BigOfStretch(received: seq<Item>, marks: seq<bool>, at: int, b: Batch, u: UniqueKey)
    requires WellCounted(b) && Stretch(received, at, b.items) && Stretch(marks, at, b.marks)
    ensures u in b.big <==> BigIn(received, marks, at, at + b.count, u)
  {
    if u in b.big {
      var i: nat :| i < |b.items| && b.marks[i] && b.items[i].uniqueKey == u;
      StretchAt(received, at, b.items, i);
      StretchAt(marks, at, b.marks, i);
      assert marks[at + i] && received[at + i].uniqueKey == u;
    }
    if BigIn(received, marks, at, at + b.count, u) {
      var j :| at <= j < at + b.count && marks[j] && received[j].uniqueKey == u;
      StretchAt(received, at, b.items, j - at);
      StretchAt(marks, at, b.marks, j - at);
      assert b.marks[j - at] && b.items[j - at].uniqueKey == u;
    }
  }

  /** Check number `i` judges request number `i`, by the keys of the big requests in the stretch of its batch. */
  ghost predicate Judges(received: seq<Item>, marks: seq<bool>, k: Check, i: nat, u: UniqueKey) {
    && i < |received| && i < |marks| && k.item == received[i]
    && k.pos <= i && i - k.pos + k.batch.count <= |marks|
    && (u in k.batch.big <==> BigIn(received, marks, i - k.pos, i - k.pos + k.batch.count, u))
    && (marks[i] ==> k.item.uniqueKey in k.batch.big)
  }

  lemma PlacedJudges(received: seq<Item>, marks: seq<bool>, k: Check, i: nat, u: UniqueKey)
    requires Placed(k, i, received, marks) && OwnBatch(k)
    ensures Judges(received, marks, k, i, u)
  {
    var at := i - k.pos;
    StretchAt(received, at, k.batch.items, k.pos);
    StretchAt(marks, at, k.batch.marks, k.pos);
    BigOfStretch(received, marks, at, k.batch, u);
    BigOfStretch(received, marks, at, k.batch, k.item.uniqueKey);
  }

  /** For every request checked in every run: it is the next one received, and the target was asked about exactly the
      keys of the requests in the stretch of its batch that were classified as big. So a request classified as big is
      among them, and goes out unjudged only if the lookup had no verdict for it. */
  lemma {:induction false} BigDocumentsAreLookedUp(c: Config, actions: seq<Action>, i: nat, u: UniqueKey)
    requires c.maxCount > 0 && c.maxSize > 0 && i < |Run(c, actions).checked|
    ensures Judges(Run(c, actions).received, Classified(c, actions), Run(c, actions).checked[i], i, u)
    ensures var k := Run(c, actions).checked[i];
            k.noRep.Keys <= k.batch.big && (k.status == Send <==> k.item.uniqueKey !in k.noRep)
  {
    RunAligned(c, actions);
    RunFits(c, actions);
    var s, marks := Run(c, actions), Classified(c, actions);
    assert Placed(s.checked[i], i, s.received, marks) && OwnBatch(s.checked[i]);
    PlacedJudges(s.received, marks, s.checked[i], i, u);
  }

  lemma LastStretch<T>(all: seq<T>, at: int, busy: seq<T>, ready: seq<T>, current: seq<T>, rest: seq<T>)
    requires Ahead(all, at, busy, ready, current, rest)
    ensures Stretch(all, |all| - |rest| - |current|, current)
  {
    AheadEnds(all, at, busy, ready, current, rest);
    var tail, n := all[at..], |busy| + |ready|;
    assert tail == (busy + ready) + current + rest;
    assert tail[n..n + |current|] == current;
    assert all[at + n..at + n + |current|] == tail[n..n + |current|];
  }

  lemma {:induction false} SameLengths(ready: seq<Batch>)
    requires AllCounted(ready)
    ensures |Flat(ready)| == |FlatMarks(ready)|
  {
    if ready != [] {
      assert WellCounted(ready[0]);
      SameLengths(ready[1..]);
    }
  }

  lemma AheadLength<T>(all: seq<T>, at: int, busy: seq<T>, ready: seq<T>, current: seq<T>, rest: seq<T>)
    requires Ahead(all, at, busy, ready, current, rest)
    ensures |all| == at + |busy| + |ready| + |current| + |rest|
  {
    assert |all[at..]| == |all| - at;
  }

  /** The last requests counted are those of the current batch. */
  ghost predicate LastCounted(received: seq<Item>, marks: seq<bool>, b: Batch, inFlight: nat) {
    && b.count <= |marks| && |received| == |marks| + inFlight
    && Stretch(received, |marks| - b.count, b.items) && Stretch(marks, |marks| - b.count, b.marks)
  }

  lemma CurrentIsLast(s: State, marks: seq<bool>)
    requires Aligned(s, marks) && ConsumerFits(s.consumer) && AllCounted(s.ready) && WellCounted(s.batch)
    ensures LastCounted(s.received, marks, s.batch, |InFlight(s.producer)|)
  {
    var at := Begin(|s.checked|, s.consumer);
    SameLengths(s.ready);
    AheadLength(s.received, at, BusyItems(s.consumer), Flat(s.ready), s.batch.items, InFlight(s.producer));
    AheadLength(marks, at, BusyMarks(s.consumer), FlatMarks(s.ready), s.batch.marks, []);
    LastStretch(s.received, at, BusyItems(s.consumer), Flat(s.ready), s.batch.items, InFlight(s.producer));
    LastStretch(marks, at, BusyMarks(s.consumer), FlatMarks(s.ready), s.batch.marks, []);
  }

  /** The current batch has exactly the keys of the big requests among the last ones counted. */
  ghost predicate KnowsBig(received: seq<Item>, marks: seq<bool>, b: Batch, inFlight: nat, u: UniqueKey) {
    && b.count <= |marks| && |received| == |marks| + inFlight
    && (u in b.big <==> BigIn(received, marks, |marks| - b.count, |marks|, u))
  }

  lemma LastKnowsBig(received: seq<Item>, marks: seq<bool>, b: Batch, inFlight: nat, u: UniqueKey)
    requires LastCounted(received, marks, b, inFlight) && WellCounted(b)
    ensures KnowsBig(received, marks, b, inFlight, u)
  {
    BigOfStretch(received, marks, |marks| - b.count, b, u);
  }

  /** The same of the batch that is being filled. */
  lemma {:induction false} CurrentBatchKnowsBig(c: Config, actions: seq<Action>, u: UniqueKey)
    requires c.maxCount > 0 && c.maxSize > 0
    ensures var s := Run(c, actions);
            KnowsBig(s.received, Classified(c, actions), s.batch, |InFlight(s.producer)|, u)
  {
    RunAligned(c, actions);
    RunFits(c, actions);
    var s, marks := Run(c, actions), Classified(c, actions);
    CurrentIsLast(s, marks);
    LastKnowsBig(s.received, marks, s.batch, |InFlight(s.producer)|, u);
  }
}
