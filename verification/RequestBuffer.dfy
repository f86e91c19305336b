/**
 The buffer of requests that an XMEM nozzle has sent and not yet seen acknowledged.

 Goroutines: senders that put a request into a slot, one receiver that matches
 responses and evicts, and any number of resenders. An `Action` is what one of
 them does between two points where another can interfere; the network may
 return any response to any request ever sent, any number of times, in any order.
 */
module RequestBuffer {
  import opened Common

  const UNINITIALIZED_RESERVATION := -1
  const SEQUENCES := 0x1_0000

  datatype Request = Request(item: nat, opaqueId: nat)

  datatype Slot = Slot(req: Option<Request>, reservation: int, sentTime: int, retries: nat, timedOut: bool)

  const EmptySlot := Slot(None, UNINITIALIZED_RESERVATION, 0, 0, false)

  /** One stay of a request in a slot: the slot and how often it had been evicted before. */
  datatype Occupancy = Occupancy(pos: nat, turn: nat)

  datatype Receiver = Idle | HoldsToken | Evicting(pos: nat)

  /** A resend between reading the slot and its bookkeeping. */
  datatype Resend = Resend(of: Occupancy, oldSequence: nat, reset: bool)

  /** What decides about a timed-out request: how often to retry, and how long to wait for a response. */
  datatype Limits = Limits(maxRetry: nat, respTimeout: nat, maxInterval: nat)

  datatype State = State(
    slots: seq<Slot>,
    sequences: seq<nat>,
    free: seq<nat>,             // the channel empty_slots_pos
    taken: set<nat>,            // positions received by enSlot, slot not locked yet
    tokens: nat,                // length of the token channel
    occupied: int,
    receiver: Receiver,
    resends: seq<Resend>,
    turns: seq<nat>,            // history: evictions per slot
    stamped: set<Occupancy>,    // history: occupancies whose request was put into its slot
    wire: set<Occupancy>,       // history: occupancies whose bytes went out
    dataSent: seq<Occupancy>,   // history: occupancies reported as sent
    panicked: bool)             // history: enSlot found its slot in use

  datatype Action =
    | TakePos
    | Fill(pos: nat, item: nat, reservation: nat, now: int)
    | Transmit(of: Occupancy)
    | PeekToken
    | ReturnToken
    | Respond(to: Occupancy)
    | FinishEvict
    | BeginResend(pos: nat, reset: bool, limits: Limits, now: int)
    | EndResend(k: nat, sent: bool, now: int)

  /** The wire identity of a request: sequence in the high half, slot in the low half. */
  function Opaque(pos: nat, sequence: nat): nat {
    sequence * SEQUENCES + pos
  }

  function PosOfOpaque(opaqueId: nat): nat {
    opaqueId % SEQUENCES
  }

  function OpaqueOf(o: Occupancy): nat {
    Opaque(o.pos, o.turn % SEQUENCES)
  }

  function Init(size: nat): State {
    State(seq(size, _ => EmptySlot), seq(size, _ => 0), seq(size, i => i), {}, 0, 0, Idle, [],
          seq(size, _ => 0), {}, {}, [], false)
  }

  /** The slot is locked by the receiver, which is half way through evictSlot. */
  predicate Locked(s: State, pos: nat) { s.receiver == Evicting(pos) }

  function TakePosStep(s: State): State {
    if s.free == [] then s
    else s.(free := s.free[1..], taken := s.taken + {s.free[0]})
  }

  predicate Shaped(s: State) {
    |s.slots| == |s.sequences| == |s.turns| < SEQUENCES
  }

  function FillStep(s: State, pos: nat, item: nat, reservation: nat, now: int): State
    requires Shaped(s)
  {
    if pos !in s.taken || pos >= |s.slots| || Locked(s, pos) then s
    else if s.slots[pos].req.Some? || s.slots[pos].reservation != UNINITIALIZED_RESERVATION then s.(panicked := true)
    else
      var req := Request(item, Opaque(pos, s.sequences[pos]));
      s.(slots := s.slots[pos := s.slots[pos].(req := Some(req), reservation := reservation, sentTime := now)],
         taken := s.taken - {pos},
         tokens := s.tokens + 1,
         occupied := s.occupied + 1,
         stamped := s.stamped + {Occupancy(pos, s.turns[pos])})
  }

  /** The bytes of a request go out, from its sender or from a resend; they may go out more than once. */
  function TransmitStep(s: State, of: Occupancy): State {
    if of in s.stamped then s.(wire := s.wire + {of}) else s
  }

  /** Does a response with this opaque belong to the request now in its slot? */
  predicate Matches(s: State, opaqueId: nat) {
    var pos := PosOfOpaque(opaqueId);
    pos < |s.slots| && s.slots[pos].req.Some? && s.slots[pos].req.value.opaqueId == opaqueId
  }

  function RespondStep(s: State, to: Occupancy): State
    requires Shaped(s)
  {
    if s.receiver != Idle || to !in s.wire || !Matches(s, OpaqueOf(to)) then s
    else
      var pos := PosOfOpaque(OpaqueOf(to));
      s.(dataSent := s.dataSent + [Occupancy(pos, s.turns[pos])],
         slots := s.slots[pos := EmptySlot],
         free := s.free + [pos],
         receiver := Evicting(pos))
  }

  function FinishEvictStep(s: State): State
    requires Shaped(s)
  {
    if !s.receiver.Evicting? || s.receiver.pos >= |s.slots| || s.tokens == 0 then s
    else
      var pos := s.receiver.pos;
      s.(occupied := s.occupied - 1,
         tokens := s.tokens - 1,
         sequences := s.sequences[pos := (s.sequences[pos] + 1) % SEQUENCES],
         turns := s.turns[pos := s.turns[pos] + 1],
         receiver := Idle)
  }

  /** How long to wait for the response after a number of retries: doubled by each, up to the greatest interval. */
  function TimeoutDuration(limits: Limits, retries: nat): nat {
    if retries == 0 then limits.respTimeout
    else
      var d := 2 * TimeoutDuration(limits, retries - 1);
      if d > limits.maxInterval then limits.maxInterval else d
  }

  /** resendIfTimeout and resendWithReset, up to the network call. */
  function BeginResendStep(s: State, pos: nat, reset: bool, limits: Limits, now: int): State
    requires Shaped(s)
  {
    if pos >= |s.slots| || Locked(s, pos) || s.slots[pos].req.None? then s
    else
      var slot := s.slots[pos];
      var resend := Resend(Occupancy(pos, s.turns[pos]), s.sequences[pos], reset);
      if reset then
        s.(slots := s.slots[pos := slot.(retries := 0, timedOut := false)], resends := s.resends + [resend])
      else if slot.timedOut then s
      else if slot.retries > limits.maxRetry then s.(slots := s.slots[pos := slot.(timedOut := true)])
      else if now - slot.sentTime > TimeoutDuration(limits, slot.retries) then s.(resends := s.resends + [resend])
      else s
  }

  /** The slot still carries the sequence number that the resend read. */
  predicate StillCurrent(s: State, r: Resend) {
    r.of.pos < |s.slots| && r.of.pos < |s.sequences| &&
    s.slots[r.of.pos].req.Some? && s.sequences[r.of.pos] == r.oldSequence
  }

  function EndResendStep(s: State, k: nat, sent: bool, now: int): State
    requires Shaped(s)
  {
    if k >= |s.resends| || Locked(s, s.resends[k].of.pos) then s
    else
      var r := s.resends[k];
      var s := s.(resends := s.resends[..k] + s.resends[k + 1..]);
      if !sent || !StillCurrent(s, r) then s
      else
        var slot := s.slots[r.of.pos];
        s.(slots := s.slots[r.of.pos := slot.(sentTime := now,
            retries := if r.reset then slot.retries else slot.retries + 1)])
  }

  function Step(s: State, a: Action): (r: State)
    ensures |r.slots| == |s.slots| && |r.sequences| == |s.sequences| && |r.turns| == |s.turns|
  {
    if !Shaped(s) then s else
    match a
    case TakePos => TakePosStep(s)
    case Fill(pos, item, reservation, now) => FillStep(s, pos, item, reservation, now)
    case Transmit(of) => TransmitStep(s, of)
    case PeekToken =>
      if s.receiver == Idle && s.tokens > 0 then s.(tokens := s.tokens - 1, receiver := HoldsToken) else s
    case ReturnToken => if s.receiver == HoldsToken then s.(tokens := s.tokens + 1, receiver := Idle) else s
    case Respond(to) => RespondStep(s, to)
    case FinishEvict => FinishEvictStep(s)
    case BeginResend(pos, reset, limits, now) => BeginResendStep(s, pos, reset, limits, now)
    case EndResend(k, sent, now) => EndResendStep(s, k, sent, now)
  }

  // -------------------------------------------------------------------------
  // The invariant

  predicate Distinct<T(==)>(xs: seq<T>) {
    forall i, j :: 0 <= i < j < |xs| ==> xs[i] != xs[j]
  }

  /** The free channel and the positions in flight are exactly the empty slots. */
  ghost predicate FreeExact(slots: seq<Slot>, free: seq<nat>, taken: set<nat>) {
    && Distinct(free)
    && (forall p :: p in free ==> p < |slots| && p !in taken && slots[p] == EmptySlot)
    && (forall p :: p in taken ==> p < |slots| && slots[p] == EmptySlot)
    && (forall p :: 0 <= p < |slots| && p !in free && p !in taken ==>
          slots[p].req.Some? && slots[p].reservation != UNINITIALIZED_RESERVATION)
  }

  ghost predicate Counted(s: State) {
    && |s.free| + |s.taken| <= |s.slots|
    && s.occupied == |s.slots| - |s.free| - |s.taken| + (if s.receiver.Evicting? then 1 else 0)
    && s.tokens + (if s.receiver.HoldsToken? then 1 else 0) == s.occupied
    && (s.receiver.Evicting? ==>
          s.receiver.pos < |s.slots| && (s.receiver.pos in s.free || s.receiver.pos in s.taken))
    && !s.panicked
  }

  ghost predicate Stamped(slots: seq<Slot>, sequences: seq<nat>, turns: seq<nat>)
    requires |slots| == |sequences| == |turns|
  {
    && (forall p :: 0 <= p < |slots| ==> sequences[p] == turns[p] % SEQUENCES)
    && (forall p :: 0 <= p < |slots| && slots[p].req.Some? ==> slots[p].req.value.opaqueId == Opaque(p, sequences[p]))
  }

  /** Occupancy `o` is over, or it is the one being evicted. */
  predicate Ended(s: State, o: Occupancy) {
    o.pos < |s.turns| && (o.turn < s.turns[o.pos] || (o.turn == s.turns[o.pos] && s.receiver == Evicting(o.pos)))
  }

  /** Occupancy `o` has started. */
  predicate Begun(s: State, o: Occupancy) {
    o.pos < |s.turns| && o.pos < |s.slots| &&
    (Ended(s, o) || (o.turn == s.turns[o.pos] && s.slots[o.pos].req.Some?))
  }

  ghost predicate Histories(s: State) {
    && s.wire <= s.stamped
    && (forall o :: o in s.stamped ==> Begun(s, o))
    && Distinct(s.dataSent)
    && (forall o :: o in s.dataSent ==> Ended(s, o) && o in s.stamped)
    && (forall r :: r in s.resends ==> Begun(s, r.of) && r.oldSequence == r.of.turn % SEQUENCES)
    && (forall p :: 0 <= p < |s.slots| && p < |s.turns| && s.slots[p].req.Some? ==>
          Occupancy(p, s.turns[p]) in s.stamped)
  }

  ghost predicate Inv(s: State) {
    && Shaped(s)
    && FreeExact(s.slots, s.free, s.taken)
    && Counted(s)
    && Stamped(s.slots, s.sequences, s.turns)
    && Histories(s)
  }

  // -------------------------------------------------------------------------
  // Each action keeps the invariant

  lemma InitKeeps(size: nat)
    requires size < SEQUENCES
    ensures Inv(Init(size))
  {
    var s := Init(size);
    forall p | 0 <= p < |s.slots| ensures p in s.free { assert s.free[p] == p; }
    assert FreeExact(s.slots, s.free, s.taken);
    assert Stamped(s.slots, s.sequences, s.turns);
  }

  lemma {:induction false} SetBound(taken: set<nat>, n: nat)
    requires forall p :: p in taken ==> p < n
    ensures |taken| <= n
  {
    if n == 0 {
      assert taken == {};
    } else if n - 1 in taken {
      SetBound(taken - {n - 1}, n - 1);
    } else {
      SetBound(taken, n - 1);
    }
  }

  lemma DistinctFront(free: seq<nat>)
    requires free != [] && Distinct(free)
    ensures Distinct(free[..|free| - 1]) && free[|free| - 1] !in free[..|free| - 1]
    ensures forall p :: p in free[..|free| - 1] ==> p in free
  {
  }

  /** Distinct positions below `n` are at most `n` many. */
  lemma {:induction false} Pigeonhole(free: seq<nat>, taken: set<nat>, n: nat)
    requires Distinct(free) && (forall p :: p in free ==> p < n && p !in taken) && (forall p :: p in taken ==> p < n)
    ensures |free| + |taken| <= n
    decreases |free|
  {
    if free == [] {
      SetBound(taken, n);
    } else {
      var front, last := free[..|free| - 1], free[|free| - 1];
      DistinctFront(free);
      assert last in free;
      forall p | p in front ensures p < n && p !in taken + {last} { assert p in free; }
      assert |taken + {last}| == |taken| + 1;
      Pigeonhole(front, taken + {last}, n);
    }
  }

  lemma TakeKeepsFree(slots: seq<Slot>, free: seq<nat>, taken: set<nat>)
    requires FreeExact(slots, free, taken) && free != []
    ensures FreeExact(slots, free[1..], taken + {free[0]})
  {
    var rest := free[1..];
    assert forall i :: 0 <= i < |rest| ==> rest[i] == free[i + 1];
    forall p | p in rest ensures p in free && p != free[0] {
      var i :| 0 <= i < |rest| && rest[i] == p;
      assert free[i + 1] == p && free[0] != free[i + 1];
    }
    forall p | p in free && p != free[0] ensures p in rest {
      var i :| 0 <= i < |free| && free[i] == p;
      assert rest[i - 1] == p;
    }
    assert free[0] in free;
  }

  lemma TakePosKeeps(s: State)
    requires Inv(s)
    ensures Inv(TakePosStep(s))
  {
    if s.free != [] {
      var r := TakePosStep(s);
      TakeKeepsFree(s.slots, s.free, s.taken);
      assert Histories(r);
    }
  }

  lemma FillKeepsFree(slots: seq<Slot>, free: seq<nat>, taken: set<nat>, pos: nat, slot: Slot)
    requires FreeExact(slots, free, taken) && pos in taken
    requires slot.req.Some? && slot.reservation != UNINITIALIZED_RESERVATION
    ensures FreeExact(slots[pos := slot], free, taken - {pos})
  {
  }

  lemma FillKeeps(s: State, pos: nat, item: nat, reservation: nat, now: int)
    requires Inv(s)
    ensures Inv(FillStep(s, pos, item, reservation, now))
  {
    var r := FillStep(s, pos, item, reservation, now);
    if r != s {
      FillKeepsFree(s.slots, s.free, s.taken, pos, r.slots[pos]);
      assert Histories(r);
    }
  }

  lemma RespondKeepsFree(slots: seq<Slot>, free: seq<nat>, taken: set<nat>, pos: nat)
    requires FreeExact(slots, free, taken) && pos < |slots| && slots[pos].req.Some?
    ensures FreeExact(slots[pos := EmptySlot], free + [pos], taken)
    ensures |free| + 1 + |taken| <= |slots|
  {
    assert pos !in free && pos !in taken;
    Pigeonhole(free, taken + {pos}, |slots|);
  }

  lemma RespondKeeps(s: State, to: Occupancy)
    requires Inv(s)
    ensures Inv(RespondStep(s, to))
  {
    var r := RespondStep(s, to);
    if r != s {
      var pos := PosOfOpaque(OpaqueOf(to));
      RespondKeepsFree(s.slots, s.free, s.taken, pos);
      assert Stamped(r.slots, r.sequences, r.turns);
      RespondKeepsHistories(s, to);
    }
  }

  lemma RespondKeepsHistories(s: State, to: Occupancy)
    requires Inv(s)
    ensures Histories(RespondStep(s, to))
  {
    var r := RespondStep(s, to);
    if r != s {
      var pos := PosOfOpaque(OpaqueOf(to));
      var o := Occupancy(pos, s.turns[pos]);
      forall q | Begun(s, q) ensures Begun(r, q) { }
      forall q | Ended(s, q) ensures Ended(r, q) && q != o { }
    }
  }

  lemma FinishEvictKeeps(s: State)
    requires Inv(s)
    ensures Inv(FinishEvictStep(s))
  {
    var r := FinishEvictStep(s);
    if r != s {
      assert Stamped(r.slots, r.sequences, r.turns);
      forall q | Begun(s, q) ensures Begun(r, q) { }
      forall q | Ended(s, q) ensures Ended(r, q) { }
      assert Histories(r);
    }
  }

  /** Bookkeeping on a filled slot changes nothing that the invariant reads. */
  lemma BookkeepingKeeps(s: State, r: State, pos: nat)
    requires Inv(s) && pos < |s.slots| && s.slots[pos].req.Some?
    requires exists slot: Slot :: slot.req == s.slots[pos].req && slot.reservation == s.slots[pos].reservation &&
               r == s.(slots := s.slots[pos := slot], resends := r.resends)
    requires forall x :: x in r.resends ==> Begun(s, x.of) && x.oldSequence == x.of.turn % SEQUENCES
    ensures Inv(r)
  {
    assert FreeExact(r.slots, r.free, r.taken);
    assert Stamped(r.slots, r.sequences, r.turns);
    forall q | Begun(s, q) ensures Begun(r, q) { }
    forall q | Ended(s, q) ensures Ended(r, q) { }
    assert Histories(r);
  }

  lemma BeginResendKeeps(s: State, pos: nat, reset: bool, limits: Limits, now: int)
    requires Inv(s)
    ensures Inv(BeginResendStep(s, pos, reset, limits, now))
  {
    var r := BeginResendStep(s, pos, reset, limits, now);
    if r != s {
      assert r == s.(slots := s.slots[pos := r.slots[pos]], resends := r.resends);
      BookkeepingKeeps(s, r, pos);
    }
  }

  lemma EndResendKeeps(s: State, k: nat, sent: bool, now: int)
    requires Inv(s)
    ensures Inv(EndResendStep(s, k, sent, now))
  {
    var r := EndResendStep(s, k, sent, now);
    if r != s {
      var x := s.resends[k];
      if sent && StillCurrent(s, x) {
        assert r == s.(slots := s.slots[x.of.pos := r.slots[x.of.pos]], resends := r.resends);
        BookkeepingKeeps(s, r, x.of.pos);
      } else {
        assert Histories(r);
      }
    }
  }

  lemma TransmitKeeps(s: State, of: Occupancy)
    requires Inv(s)
    ensures Inv(TransmitStep(s, of))
  {
    assert Histories(TransmitStep(s, of));
  }

  lemma StepKeeps(s: State, a: Action)
    requires Inv(s)
    ensures Inv(Step(s, a))
  {
    match a {
      case TakePos => TakePosKeeps(s);
      case Fill(pos, item, reservation, now) => FillKeeps(s, pos, item, reservation, now);
      case Transmit(of) => TransmitKeeps(s, of);
      case PeekToken => assert Histories(Step(s, a));
      case ReturnToken => assert Histories(Step(s, a));
      case Respond(to) => RespondKeeps(s, to);
      case FinishEvict => FinishEvictKeeps(s);
      case BeginResend(pos, reset, limits, now) => BeginResendKeeps(s, pos, reset, limits, now);
      case EndResend(k, sent, now) => EndResendKeeps(s, k, sent, now);
    }
  }

  // -------------------------------------------------------------------------
  // What holds in every run

  function Run(size: nat, actions: seq<Action>): (s: State)
    ensures |s.slots| == |s.sequences| == |s.turns| == size
  {
    if actions == [] then Init(size)
    else Step(Run(size, actions[..|actions| - 1]), actions[|actions| - 1])
  }

  lemma {:induction false} RunKeeps(size: nat, actions: seq<Action>)
    requires size < SEQUENCES
    ensures Inv(Run(size, actions))
  {
    if actions == [] {
      InitKeeps(size);
    } else {
      RunKeeps(size, actions[..|actions| - 1]);
      StepKeeps(Run(size, actions[..|actions| - 1]), actions[|actions| - 1]);
    }
  }

  /** The free channel has no duplicates, and with the positions in flight it is exactly the empty slots;
      the counters agree with it and enSlot never panics. */
  lemma {:induction false} FreePositionsAreExact(size: nat, actions: seq<Action>, p: nat)
    requires size < SEQUENCES && p < size
    ensures var s := Run(size, actions);
            && Distinct(s.free)
            && (p in s.free || p in s.taken <==> s.slots[p].req == None)
            && !(p in s.free && p in s.taken)
            && !s.panicked
    ensures var s := Run(size, actions);
            s.receiver == Idle ==> s.occupied == s.tokens == size - |s.free| - |s.taken|
  {
    RunKeeps(size, actions);
  }

  /** No channel operation of enSlot, evictSlot or the receiver exceeds a capacity or waits for a token. */
  lemma {:induction false} ChannelsNeverBlock(size: nat, actions: seq<Action>, p: nat)
    requires size < SEQUENCES && p < size
    ensures var s := Run(size, actions);
            && (p in s.taken && !Locked(s, p) ==> s.tokens < size)
            && (s.slots[p].req.Some? ==> |s.free| < size)
            && (s.receiver.Evicting? ==> s.tokens > 0)
            && (s.receiver == HoldsToken ==> s.tokens < size)
  {
    RunKeeps(size, actions);
    var s := Run(size, actions);
    if s.slots[p].req.Some? {
      RespondKeepsFree(s.slots, s.free, s.taken, p);
    }
    if p in s.taken && s.receiver.Evicting? && s.receiver.pos != p {
      var q := s.receiver.pos;
      if q in s.taken {
        assert |s.taken - {p, q}| == |s.taken| - 2;
      } else {
        assert s.taken - {p} + {p} == s.taken;
      }
    }
  }

  ghost predicate AllFree(slots: seq<Slot>) { forall p :: 0 <= p < |slots| ==> slots[p].req.None? }

  ghost predicate Covered(free: seq<nat>, taken: set<nat>, n: nat) {
    forall p: nat :: p < n ==> p in free || p in taken
  }

  lemma WithoutOne(free: seq<nat>, i: nat, p: nat)
    requires i < |free| && p in free && p != free[i]
    ensures p in free[..i] + free[i + 1..]
  {
    var k :| 0 <= k < |free| && free[k] == p;
    assert (free[..i] + free[i + 1..])[if k < i then k else k - 1] == p;
  }

  lemma {:induction false} CoveredCounts(free: seq<nat>, taken: set<nat>, n: nat)
    requires Covered(free, taken, n)
    ensures n <= |free| + |taken|
  {
    if n > 0 {
      var last: nat := n - 1;
      assert last in free || last in taken;
      if last in taken {
        CoveredCounts(free, taken - {last}, n - 1);
      } else {
        var i: nat :| i < |free| && free[i] == last;
        forall p: nat | p < n - 1 && p in free ensures p in free[..i] + free[i + 1..] { WithoutOne(free, i, p); }
        CoveredCounts(free[..i] + free[i + 1..], taken, n - 1);
      }
    }
  }

  /** Empty slots are free or taken, so if all are empty, all positions are. */
  lemma AllFreeCounts(slots: seq<Slot>, free: seq<nat>, taken: set<nat>)
    requires FreeExact(slots, free, taken)
    ensures AllFree(slots) ==> |slots| <= |free| + |taken|
  {
    if AllFree(slots) {
      forall p: nat | p < |slots| ensures p in free || p in taken { assert slots[p].req.None?; }
      CoveredCounts(free, taken, |slots|);
    }
  }

  /** The receiver looks for a response exactly when a request is out: it gets a token to look at if and only if some
      slot is occupied, and putting it back leaves everything as it was. */
  lemma {:induction false} TokenMeansRequest(size: nat, actions: seq<Action>)
    requires size < SEQUENCES && Run(size, actions).receiver == Idle
    ensures var s := Run(size, actions); var r := Step(s, PeekToken);
            && (r.receiver == HoldsToken <==> !AllFree(s.slots))
            && (r.receiver == HoldsToken ==> Step(r, ReturnToken) == s)
            && (r.receiver != HoldsToken ==> r == s)
  {
    RunKeeps(size, actions);
    var s := Run(size, actions);
    AllFreeCounts(s.slots, s.free, s.taken);
    if p :| 0 <= p < size && s.slots[p].req.Some? { RespondKeepsFree(s.slots, s.free, s.taken, p); }
  }

  /** Whatever the network repeats, delays or reorders, an occupancy is reported as sent at most once, and only after
      its request was put into the slot. */
  lemma {:induction false} DataSentAtMostOnce(size: nat, actions: seq<Action>, i: nat, j: nat)
    requires size < SEQUENCES && i < j < |Run(size, actions).dataSent|
    ensures Run(size, actions).dataSent[i] != Run(size, actions).dataSent[j]
    ensures Run(size, actions).dataSent[i] in Run(size, actions).stamped
  {
    RunKeeps(size, actions);
    assert Run(size, actions).dataSent[i] in Run(size, actions).dataSent;
  }

  lemma OpaqueRoundTrip(o: Occupancy, sequence: nat, pos: nat)
    requires o.pos < SEQUENCES && pos < SEQUENCES && sequence < SEQUENCES
    ensures PosOfOpaque(OpaqueOf(o)) == o.pos
    ensures OpaqueOf(o) == Opaque(pos, sequence) <==> o.pos == pos && o.turn % SEQUENCES == sequence
  {
  }

  /** Exactly which occupancy a response evicts: the one in its slot, if the eviction counts agree modulo 65536. */
  lemma {:induction false} ResponseMatchesModulo(size: nat, actions: seq<Action>, to: Occupancy)
    requires size < SEQUENCES && to in Run(size, actions).wire
    ensures var s := Run(size, actions);
            to.pos < size && PosOfOpaque(OpaqueOf(to)) == to.pos && to.turn <= s.turns[to.pos]
    ensures var s := Run(size, actions);
            Matches(s, OpaqueOf(to)) <==>
            s.slots[to.pos].req.Some? && to.turn % SEQUENCES == s.turns[to.pos] % SEQUENCES
  {
    RunKeeps(size, actions);
    var s := Run(size, actions);
    assert Begun(s, to);
    OpaqueRoundTrip(to, s.sequences[to.pos], to.pos);
  }

  lemma CloseAndCongruent(a: nat, b: nat)
    requires a <= b < a + SEQUENCES
    ensures a % SEQUENCES == b % SEQUENCES <==> a == b
  {
  }

  /** With fewer than 65536 evictions of the slot since the request was sent, a response evicts its own request and
      no other. */
  lemma {:induction false} ResponseEvictsItsOwn(size: nat, actions: seq<Action>, to: Occupancy)
    requires size < SEQUENCES && to in Run(size, actions).wire
    requires to.pos < size && Run(size, actions).turns[to.pos] < to.turn + SEQUENCES
    ensures var s := Run(size, actions);
            Matches(s, OpaqueOf(to)) <==> s.slots[to.pos].req.Some? && to == Occupancy(to.pos, s.turns[to.pos])
    ensures var s := Run(size, actions);
            s.receiver == Idle && Matches(s, OpaqueOf(to)) ==> Step(s, Respond(to)).dataSent == s.dataSent + [to]
  {
    RunKeeps(size, actions);
    ResponseMatchesModulo(size, actions, to);
    CloseAndCongruent(to.turn, Run(size, actions).turns[to.pos]);
  }

  /** Fewer than 65536 evictions of its slot lie between a request and a response to it. */
  predicate InTime(s: State, to: Occupancy) { to.pos < |s.turns| ==> s.turns[to.pos] < to.turn + SEQUENCES }

  ghost predicate AllInTime(size: nat, actions: seq<Action>) {
    forall n :: 0 <= n < |actions| && actions[n].Respond? ==> InTime(Run(size, actions[..n]), actions[n].to)
  }

  lemma StepReports(s: State, a: Action)
    ensures Step(s, a).wire >= s.wire
    ensures !a.Respond? ==> Step(s, a).dataSent == s.dataSent
  {
  }

  /** If every response comes in time, only requests whose bytes went out are reported as sent. */
  lemma {:induction false} ReportedWentOut(size: nat, actions: seq<Action>, o: Occupancy)
    requires size < SEQUENCES && AllInTime(size, actions) && o in Run(size, actions).dataSent
    ensures o in Run(size, actions).wire
  {
    var front, a := actions[..|actions| - 1], actions[|actions| - 1];
    var s := Run(size, front);
    forall n | 0 <= n < |front| && front[n].Respond? ensures InTime(Run(size, front[..n]), front[n].to) {
      assert front[..n] == actions[..n];
    }
    StepReports(s, a);
    if o in s.dataSent {
      ReportedWentOut(size, front, o);
    } else {
      var to := a.to;
      assert InTime(s, to);
      ResponseMatchesModulo(size, front, to);
      ResponseEvictsItsOwn(size, front, to);
    }
  }

  /** A temporary error resends and resets whatever the slot holds, since opaques are not compared: another request than
      the one it answers exactly when the slot has been evicted and filled again since. */
  lemma {:induction false} ErrorResponseTouches(size: nat, actions: seq<Action>, to: Occupancy, limits: Limits,
                                                now: int)
    requires size < SEQUENCES && to in Run(size, actions).wire && !Locked(Run(size, actions), to.pos)
    ensures to.pos < size && PosOfOpaque(OpaqueOf(to)) == to.pos && to.turn <= Run(size, actions).turns[to.pos]
    ensures var s := Run(size, actions); var touched := Occupancy(to.pos, s.turns[to.pos]);
            var r := Step(s, BeginResend(PosOfOpaque(OpaqueOf(to)), true, limits, now));
            if s.slots[to.pos].req.None? then r == s
            else && r.resends == s.resends + [Resend(touched, s.sequences[to.pos], true)]
                 && r.slots[to.pos].retries == 0
                 && (touched != to <==> to.turn < s.turns[to.pos])
  {
    RunKeeps(size, actions);
    ResponseMatchesModulo(size, actions, to);
  }

  /** The same bound protects the bookkeeping of a resend: it touches the slot only if the slot still holds
      the request that was resent. */
  lemma {:induction false} ResendUpdatesItsOwn(size: nat, actions: seq<Action>, k: nat)
    requires size < SEQUENCES && k < |Run(size, actions).resends|
    ensures Run(size, actions).resends[k].of.pos < size
    ensures var s := Run(size, actions); var r := s.resends[k];
            (StillCurrent(s, r) <==>
             s.slots[r.of.pos].req.Some? && r.of.turn % SEQUENCES == s.turns[r.of.pos] % SEQUENCES)
    ensures var s := Run(size, actions); var r := s.resends[k];
            s.turns[r.of.pos] < r.of.turn + SEQUENCES ==>
              (StillCurrent(s, r) <==> s.slots[r.of.pos].req.Some? && r.of == Occupancy(r.of.pos, s.turns[r.of.pos]))
  {
    RunKeeps(size, actions);
    var s := Run(size, actions);
    var r := s.resends[k];
    assert r in s.resends && Begun(s, r.of);
    if s.turns[r.of.pos] < r.of.turn + SEQUENCES { CloseAndCongruent(r.of.turn, s.turns[r.of.pos]); }
  }

  function Pow2(n: nat): nat { if n == 0 then 1 else 2 * Pow2(n - 1) }

  lemma {:induction false} CappedStays(limits: Limits, n: nat, m: nat)
    requires 0 < n <= m && TimeoutDuration(limits, n) == limits.maxInterval
    ensures TimeoutDuration(limits, m) == limits.maxInterval
    decreases m
  {
    if n < m { CappedStays(limits, n, m - 1); }
  }

  /** The time to wait after retries is the timeout times a power of two, or the greatest interval if that is less. */
  lemma {:induction false} TimeoutIsPower(limits: Limits, n: nat)
    requires n > 0
    ensures var d := limits.respTimeout * Pow2(n);
            TimeoutDuration(limits, n) == if d > limits.maxInterval then limits.maxInterval else d
  {
    assert Pow2(1) == 2;
    if n > 1 {
      TimeoutIsPower(limits, n - 1);
      var d := limits.respTimeout * Pow2(n - 1);
      assert limits.respTimeout * Pow2(n) == 2 * d;
    }
  }

  // -------------------------------------------------------------------------
  // The bound is tight

  /** Fill and acknowledge the only slot `n` times. */
  function Cycles(n: nat): seq<Action> {
    if n == 0 then []
    else Cycles(n - 1) + [TakePos] + [Fill(0, n, 0, 0)] + [Transmit(Occupancy(0, n - 1))] +
         [Respond(Occupancy(0, n - 1))] + [FinishEvict]
  }

  ghost predicate AfterCycles(s: State, n: nat) {
    && s.slots == [EmptySlot] && s.sequences == [n % SEQUENCES] && s.turns == [n]
    && s.free == [0] && s.taken == {} && s.tokens == 0 && s.receiver == Idle
    && (n > 0 ==> Occupancy(0, 0) in s.wire)
  }

  lemma RunAppend(size: nat, actions: seq<Action>, a: Action)
    ensures Run(size, actions + [a]) == Step(Run(size, actions), a)
  {
    assert (actions + [a])[..|actions|] == actions;
  }

  lemma {:induction false} CyclesReach(n: nat)
    ensures AfterCycles(Run(1, Cycles(n)), n)
  {
    if n > 0 {
      CyclesReach(n - 1);
      var c := Cycles(n - 1);
      var o := Occupancy(0, n - 1);
      RunAppend(1, c, TakePos);
      RunAppend(1, c + [TakePos], Fill(0, n, 0, 0));
      RunAppend(1, c + [TakePos] + [Fill(0, n, 0, 0)], Transmit(o));
      RunAppend(1, c + [TakePos] + [Fill(0, n, 0, 0)] + [Transmit(o)], Respond(o));
      RunAppend(1, c + [TakePos] + [Fill(0, n, 0, 0)] + [Transmit(o)] + [Respond(o)], FinishEvict);
      OneCycle(Run(1, c), n);
    }
  }

  /** Between the filling of the only slot and the response to it. */
  ghost predicate InCycle(s: State, n: nat) {
    && n > 0 && |s.slots| == 1 && s.slots[0].req == Some(Request(n, OpaqueOf(Occupancy(0, n - 1))))
    && s.sequences == [(n - 1) % SEQUENCES] && s.turns == [n - 1]
    && s.free == [] && s.taken == {} && s.tokens == 1 && s.receiver == Idle
    && Occupancy(0, n - 1) in s.stamped && (n > 1 ==> Occupancy(0, 0) in s.wire)
  }

  lemma CycleBegins(s: State, n: nat)
    requires n > 0 && AfterCycles(s, n - 1)
    ensures InCycle(FillStep(TakePosStep(s), 0, n, 0, 0), n)
  {
    var s1 := TakePosStep(s);
    assert s1.free == [] && s1.taken == {0};
    assert s1.taken - {0} == {};
  }

  lemma CycleEnds(s: State, n: nat)
    requires InCycle(s, n) && Occupancy(0, n - 1) in s.wire
    ensures Shaped(RespondStep(s, Occupancy(0, n - 1))) &&
            AfterCycles(FinishEvictStep(RespondStep(s, Occupancy(0, n - 1))), n)
  {
    OpaqueRoundTrip(Occupancy(0, n - 1), s.sequences[0], 0);
    var s3 := RespondStep(s, Occupancy(0, n - 1));
    assert s3.slots == [EmptySlot] && s3.free == [0];
  }

  lemma OneCycle(s: State, n: nat)
    requires n > 0 && AfterCycles(s, n - 1)
    ensures var o := Occupancy(0, n - 1);
            AfterCycles(Step(Step(Step(Step(Step(s, TakePos), Fill(0, n, 0, 0)), Transmit(o)), Respond(o)),
                FinishEvict), n)
  {
    var o := Occupancy(0, n - 1);
    CycleBegins(s, n);
    var s2 := Step(Step(s, TakePos), Fill(0, n, 0, 0));
    assert s2 == FillStep(TakePosStep(s), 0, n, 0, 0);
    var s3 := Step(s2, Transmit(o));
    assert s3 == s2.(wire := s2.wire + {o});
    CycleEnds(s3, n);
    assert Step(s3, Respond(o)) == RespondStep(s3, o);
  }

  ghost predicate Confused(s: State) {
    && Occupancy(0, 0) in s.wire
    && s.turns == [SEQUENCES]
    && Matches(s, OpaqueOf(Occupancy(0, 0)))
    && Step(s, Respond(Occupancy(0, 0))).dataSent == s.dataSent + [Occupancy(0, SEQUENCES)]
    && Occupancy(0, SEQUENCES) !in s.wire
  }

  lemma ConfusedAfterCycles(s: State)
    requires AfterCycles(s, SEQUENCES) && Inv(s)
    ensures Confused(FillStep(TakePosStep(s), 0, 7, 0, 0))
  {
    assert !Begun(s, Occupancy(0, SEQUENCES));
    var s1 := TakePosStep(s);
    assert s1.taken == {0};
    assert FillStep(s1, 0, 7, 0, 0).slots[0].req == Some(Request(7, 0));
  }

  /** After 65536 evictions a repeated response to the first request is taken for an answer to another one, whose bytes
      have not even gone out. */
  lemma StaleResponseConfuses() returns (actions: seq<Action>)
    ensures var s := Run(1, actions);
            && Occupancy(0, 0) in s.wire
            && s.turns == [SEQUENCES]
            && Matches(s, OpaqueOf(Occupancy(0, 0)))
            && Step(s, Respond(Occupancy(0, 0))).dataSent == s.dataSent + [Occupancy(0, SEQUENCES)]
            && Occupancy(0, SEQUENCES) !in s.wire
  {
    var c := Cycles(SEQUENCES);
    CyclesReach(SEQUENCES);
    RunKeeps(1, c);
    RunAppend(1, c, TakePos);
    RunAppend(1, c + [TakePos], Fill(0, 7, 0, 0));
    actions := c + [TakePos] + [Fill(0, 7, 0, 0)];
    ConfusedAfterCycles(Run(1, c));
    assert Confused(Run(1, actions));
  }

  // -------------------------------------------------------------------------
  // The buffer object

  class Buffer {
    const slots: array<Slot>
    const sequences: array<nat>
    var emptySlotsPos: seq<nat>
    var occupiedCount: int
    var tokenCh: nat
    ghost var taken: set<nat>
    ghost var receiver: Receiver
    ghost var resends: seq<Resend>
    ghost var turns: seq<nat>
    ghost var stamped: set<Occupancy>
    ghost var wire: set<Occupancy>
    ghost var dataSent: seq<Occupancy>
    ghost var panicked: bool

    ghost function View(): State
      reads this, slots, sequences
    {
      State(slots[..], sequences[..], emptySlotsPos, taken, tokenCh, occupiedCount, receiver, resends,
            turns, stamped, wire, dataSent, panicked)
    }

    /** newReqBuffer and initialize. */
    constructor (size: nat)
      requires size < SEQUENCES
      ensures View() == Init(size)
      ensures fresh(slots) && fresh(sequences)
    {
      slots := new Slot[size](_ => EmptySlot);
      sequences := new nat[size](_ => 0);
      emptySlotsPos, tokenCh, occupiedCount := [], 0, 0;
      taken, receiver, resends, turns := {}, Idle, [], seq(size, _ => 0);
      stamped, wire, dataSent, panicked := {}, {}, [], false;
      new;
      for i := 0 to size
        invariant forall p :: 0 <= p < i ==> slots[p] == EmptySlot && sequences[p] == 0
        invariant emptySlotsPos == seq(i, p => p)
        invariant tokenCh == 0 && occupiedCount == 0 && taken == {} && receiver == Idle && resends == []
        invariant turns == seq(size, _ => 0) && stamped == {} && wire == {} && dataSent == [] && !panicked
      {
        slots[i] := EmptySlot;
        emptySlotsPos := emptySlotsPos + [i];
        sequences[i] := 0;
      }
      assert slots[..] == Init(size).slots;
      assert sequences[..] == Init(size).sequences;
    }

    /** enSlot, first part: receive a free position, or wait for one. */
    method TakePosition() returns (index: Option<nat>)
      requires Shaped(View())
      modifies this`emptySlotsPos, this`taken
      ensures View() == Step(old(View()), TakePos)
      ensures index == if old(emptySlotsPos) == [] then None else Some(old(emptySlotsPos)[0])
      ensures index.Some? ==> old(emptySlotsPos) == [index.value] + emptySlotsPos && index.value in taken
    {
      if emptySlotsPos == [] {
        return None;
      }
      index := Some(emptySlotsPos[0]);
      taken := taken + {emptySlotsPos[0]};
      emptySlotsPos := emptySlotsPos[1..];
    }

    /** enSlot, second part: under the slot lock, stamp the request and count it; panic on a slot in use. */
    method EnSlot(index: nat, item: nat, reservation: nat, now: int) returns (opaqueId: Option<nat>)
      requires Shaped(View()) && index in taken && index < slots.Length && !Locked(View(), index)
      modifies this, slots
      ensures View() == Step(old(View()), Fill(index, item, reservation, now))
      ensures opaqueId.Some? ==> Matches(View(), opaqueId.value) && PosOfOpaque(opaqueId.value) == index
      ensures opaqueId.None? ==> panicked
    {
      if slots[index].req.Some? || slots[index].reservation != UNINITIALIZED_RESERVATION {
        panicked := true;
        return None;
      }
      var id := sequences[index] * SEQUENCES + index;
      opaqueId := Some(id);
      slots[index] := slots[index].(req := Some(Request(item, id)), reservation := reservation, sentTime := now);
      stamped := stamped + {Occupancy(index, turns[index])};
      taken := taken - {index};
      tokenCh := tokenCh + 1;
      occupiedCount := occupiedCount + 1;
    }

    /** receiveResponse on a successful response, up to the point where evictSlot has freed the position. */
    method OnResponse(opaqueId: nat, ghost to: Occupancy) returns (evicted: bool)
      requires Shaped(View()) && receiver == Idle && to in wire && opaqueId == OpaqueOf(to)
      modifies this, slots
      ensures View() == Step(old(View()), Respond(to))
      ensures evicted <==> old(Matches(View(), opaqueId))
    {
      var pos := opaqueId % SEQUENCES;
      evicted := pos < slots.Length && slots[pos].req.Some? && slots[pos].req.value.opaqueId == opaqueId;
      if evicted {
        dataSent := dataSent + [Occupancy(pos, turns[pos])];
        slots[pos] := EmptySlot;
        emptySlotsPos := emptySlotsPos + [pos];
        receiver := Evicting(pos);
      }
    }

    /** The rest of evictSlot: counters, token, and the sequence of the slot with 16-bit wrap-around. */
    method FinishEvict(pos: nat)
      requires Shaped(View()) && receiver == Evicting(pos) && pos < slots.Length
      requires tokenCh > 0 && sequences[pos] < SEQUENCES
      modifies this, sequences
      ensures View() == Step(old(View()), Action.FinishEvict)
    {
      var next := if sequences[pos] + 1 > 65535 then 0 else sequences[pos] + 1;
      assert next == (sequences[pos] + 1) % SEQUENCES;
      sequences[pos] := next;
      assert sequences[..] == old(sequences[..])[pos := next];
      occupiedCount, tokenCh := occupiedCount - 1, tokenCh - 1;
      turns := turns[pos := turns[pos] + 1];
      receiver := Idle;
    }

    /** timeoutDuration: the loop that doubles. */
    method ComputeTimeout(limits: Limits, retries: nat) returns (duration: nat)
      ensures duration == TimeoutDuration(limits, retries)
    {
      duration := limits.respTimeout;
      for i := 0 to retries
        invariant duration == TimeoutDuration(limits, i)
      {
        duration := 2 * duration;
        if duration > limits.maxInterval {
          duration := limits.maxInterval;
          CappedStays(limits, i + 1, retries);
          break;
        }
      }
    }

    /** resendIfTimeout (`reset` false) and resendWithReset, up to the network call. */
    method BeginResend(pos: nat, reset: bool, limits: Limits, now: int) returns (resend: bool, oldSequence: nat)
      requires Shaped(View()) && pos < slots.Length && !Locked(View(), pos)
      modifies this`resends, slots
      ensures View() == Step(old(View()), Action.BeginResend(pos, reset, limits, now))
      ensures resends == old(resends) +
              (if resend then [Resend(Occupancy(pos, turns[pos]), oldSequence, reset)] else [])
    {
      var slot := slots[pos];
      resend, oldSequence := false, sequences[pos];
      if slot.req.Some? {
        if reset {
          slots[pos] := slot.(retries := 0, timedOut := false);
          resend := true;
        } else if !slot.timedOut {
          if slot.retries > limits.maxRetry {
            slots[pos] := slot.(timedOut := true);
          } else {
            var duration := ComputeTimeout(limits, slot.retries);
            resend := now - slot.sentTime > duration;
          }
        }
      }
      if resend { resends := resends + [Resend(Occupancy(pos, turns[pos]), oldSequence, reset)]; }
    }

    /** The bookkeeping of a resend after the network call. */
    method EndResend(pos: nat, oldSequence: nat, reset: bool, sent: bool, now: int, ghost k: nat)
      requires Shaped(View()) && k < |resends| && pos < slots.Length && !Locked(View(), pos)
      requires resends[k].of.pos == pos && resends[k].oldSequence == oldSequence && resends[k].reset == reset
      modifies this`resends, slots
      ensures View() == Step(old(View()), Action.EndResend(k, sent, now))
    {
      resends := resends[..k] + resends[k + 1..];
      if sent && slots[pos].req.Some? && sequences[pos] == oldSequence {
        var slot := slots[pos];
        slots[pos] := slot.(sentTime := now, retries := if reset then slot.retries else slot.retries + 1);
      }
    }
  }
}
