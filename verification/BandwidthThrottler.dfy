/**
 The bandwidth throttler: a quota of bytes that callers take from, that a ticker
 refills by a fraction of the limit, and that changes of the limit cut down. Every
 operation takes effect in one successful compare-and-swap of the quota, so a run
 is any sequence of them; the limit is loaded before that and may be an older one.
 */
module BandwidthThrottler {

  /** What Throttle answers: the bytes that may be sent now, and those that may be asked for next. */
  datatype Answer = Answer(canSend: int, allowed: int)

  /** The sizes a caller asks with: all of its bytes, a minimal part, and the first item. */
  datatype Ask = Ask(all: nat, min: nat, first: nat)

  function PerSlot(limit: nat, slots: nat): nat
    requires slots > 0
  {
    limit / slots
  }

  /** Throttle on the quota that its swap replaces. */
  function Decide(limit: nat, slots: nat, quota: int, ask: Ask): Answer
    requires slots > 0
  {
    if limit == 0 then Answer(ask.all, 0)
    else if quota <= 0 then Answer(0, 0)
    else if quota >= ask.all then Answer(ask.all, 0)
    else if quota >= ask.min then Answer(ask.min, quota - ask.min)
    else if PerSlot(limit, slots) < ask.first then
      Answer(ask.first, if quota - ask.first > 0 then quota - ask.first else 0)
    else Answer(0, quota)
  }

  // -------------------------------------------------------------------------
  // All callers, the ticker and the settings together

  /** The quota, the limits that were ever in force and, as history, the bytes granted and the ticks so far. */
  datatype State = State(limit: nat, past: set<nat>, quota: int, granted: nat, ticks: nat)

  datatype Action =
    | Grant(limit: nat, ask: Ask)   // Throttle, with the limit it has loaded
    | Tick(limit: nat)              // updateOnce, with the limit it has loaded
    | SetLimit(limit: nat)          // setBandwidthLimit
    | Adjust(limit: nat)            // adjustBandwidthUsageQuota after it

  function Initial(limit: nat, slots: nat): State
    requires slots > 0
  {
    State(limit, {limit}, PerSlot(limit, slots), 0, 0)
  }

  function Least(a: int, b: int): int { if a <= b then a else b }

  function GrantStep(s: State, slots: nat, limit: nat, ask: Ask): State
    requires slots > 0
  {
    var sent := Decide(limit, slots, s.quota, ask).canSend;
    s.(quota := if limit == 0 then s.quota else s.quota - sent,
       granted := if sent > 0 then s.granted + sent else s.granted)
  }

  function Step(s: State, slots: nat, a: Action): State
    requires slots > 0
  {
    if !a.SetLimit? && a.limit !in s.past then s
    else
      match a
      case Grant(limit, ask) => GrantStep(s, slots, limit, ask)
      case Tick(limit) =>
        s.(quota := Least(s.quota + PerSlot(limit, slots), limit), ticks := s.ticks + 1)
      case SetLimit(limit) => s.(limit := limit, past := s.past + {limit})
      case Adjust(limit) => s.(quota := Least(s.quota, limit))
  }

  function Run(s: State, slots: nat, actions: seq<Action>): State
    requires slots > 0
  {
    if actions == [] then s
    else Step(Run(s, slots, actions[..|actions| - 1]), slots, actions[|actions| - 1])
  }

  /** Limits are positive and at most `most`, and no first item is larger than `item`. */
  predicate Within(a: Action, most: nat, item: nat) {
    if a.Grant? then a.ask.first <= item else 0 < a.limit <= most
  }

  predicate Sound(s: State, most: nat, item: nat) {
    && (forall limit :: limit in s.past ==> 0 < limit <= most)
    && 0 - item <= s.quota <= most
  }

  lemma Scaled(n: nat, a: int, b: int)
    ensures a <= b ==> n * a <= n * b
  {
  }

  lemma AtLeastOnce(n: nat, a: nat)
    requires n > 0
    ensures a <= n * a
  {
  }

  lemma PerSlotWithin(limit: nat, most: nat, slots: nat)
    requires slots > 0 && limit <= most
    ensures PerSlot(limit, slots) <= PerSlot(most, slots) <= most
  {
    var a, b := limit / slots, most / slots;
    assert slots * a <= limit && slots * b <= most < slots * b + slots;
    Scaled(slots, b + 1, a);
    AtLeastOnce(slots, b);
  }

  /** One operation: the quota stays in its bounds, and what is granted comes out of the quota or out of a refill. */
  lemma StepMetered(s: State, slots: nat, a: Action, most: nat, item: nat)
    requires slots > 0 && Sound(s, most, item) && Within(a, most, item)
    ensures var r := Step(s, slots, a);
            && Sound(r, most, item)
            && s.ticks <= r.ticks
            && r.granted + r.quota <=
               s.granted + s.quota + (if r.ticks > s.ticks then PerSlot(most, slots) else 0)
            && r.ticks <= s.ticks + 1
  {
    if a.Tick? { PerSlotWithin(a.limit, most, slots); }
  }

  lemma {:induction false} RunMetered(s: State, slots: nat, actions: seq<Action>, most: nat, item: nat)
    requires slots > 0 && Sound(s, most, item)
    requires forall i :: 0 <= i < |actions| ==> Within(actions[i], most, item)
    ensures var r := Run(s, slots, actions);
            && Sound(r, most, item)
            && s.ticks <= r.ticks
            && r.granted + r.quota <= s.granted + s.quota + (r.ticks - s.ticks) * PerSlot(most, slots)
  {
    if actions != [] {
      var front := actions[..|actions| - 1];
      RunMetered(s, slots, front, most, item);
      var r := Run(s, slots, front);
      StepMetered(r, slots, actions[|actions| - 1], most, item);
      var step := PerSlot(most, slots);
      assert (r.ticks + 1 - s.ticks) * step == (r.ticks - s.ticks) * step + step;
    }
  }

  /** The rate limit. However callers, ticker and changes of the limit interleave, over any stretch of a run the bytes
      granted are at most one limit, plus a slot's share for every tick, plus one item. */
  lemma {:induction false} RateIsLimited(limit: nat, slots: nat, before: seq<Action>, stretch: seq<Action>,
                                         most: nat, item: nat)
    requires slots > 0 && 0 < limit <= most
    requires forall i :: 0 <= i < |before| ==> Within(before[i], most, item)
    requires forall i :: 0 <= i < |stretch| ==> Within(stretch[i], most, item)
    ensures var s := Run(Initial(limit, slots), slots, before);
            var r := Run(s, slots, stretch);
            && s.ticks <= r.ticks
            && r.granted - s.granted <= most + (r.ticks - s.ticks) * PerSlot(most, slots) + item
  {
    PerSlotWithin(limit, most, slots);
    RunMetered(Initial(limit, slots), slots, before, most, item);
    RunMetered(Run(Initial(limit, slots), slots, before), slots, stretch, most, item);
  }

  // -------------------------------------------------------------------------
  // The refill

  /** The operations of a stretch without a new limit. */
  predicate Steady(a: Action, limit: nat) { !a.SetLimit? && a.limit == limit }

  ghost predicate AllSteady(actions: seq<Action>, limit: nat) {
    forall i :: 0 <= i < |actions| ==> Steady(actions[i], limit)
  }

  /** The limit is in force, and the quota keeps to it. */
  predicate Settled(s: State, limit: nat) { limit > 0 && limit in s.past && s.quota <= limit }

  lemma SteadyStep(s: State, slots: nat, a: Action, limit: nat)
    requires slots > 0 && Settled(s, limit) && Steady(a, limit)
    ensures Settled(Step(s, slots, a), limit)
  {
  }

  lemma {:induction false} SteadyRun(s: State, slots: nat, actions: seq<Action>, limit: nat)
    requires slots > 0 && Settled(s, limit) && AllSteady(actions, limit)
    ensures Settled(Run(s, slots, actions), limit)
  {
    if actions != [] {
      SteadyRun(s, slots, actions[..|actions| - 1], limit);
      SteadyStep(Run(s, slots, actions[..|actions| - 1]), slots, actions[|actions| - 1], limit);
    }
  }

  function Ticks(limit: nat, n: nat): seq<Action> { if n == 0 then [] else Ticks(limit, n - 1) + [Tick(limit)] }

  lemma NextMultiple(n: nat, share: nat)
    requires n > 0
    ensures n * share == (n - 1) * share + share
  {
  }

  lemma OneTick(s: State, slots: nat, limit: nat, r: State, front: seq<Action>)
    requires slots > 0 && Run(s, slots, front) == r && limit in r.past
    ensures Run(s, slots, front + [Tick(limit)]) ==
            r.(quota := Least(r.quota + PerSlot(limit, slots), limit), ticks := r.ticks + 1)
  {
    assert (front + [Tick(limit)])[..|front|] == front;
  }

  /** Left alone, the quota grows by a slot's share with every tick until it is the limit. */
  lemma {:induction false} TicksRefill(s: State, slots: nat, limit: nat, n: nat)
    requires slots > 0 && Settled(s, limit)
    ensures var r := Run(s, slots, Ticks(limit, n));
            r.quota == Least(s.quota + n * PerSlot(limit, slots), limit) && r.ticks == s.ticks + n
    ensures Run(s, slots, Ticks(limit, n)).past == s.past
  {
    if n > 0 {
      TicksRefill(s, slots, limit, n - 1);
      OneTick(s, slots, limit, Run(s, slots, Ticks(limit, n - 1)), Ticks(limit, n - 1));
      NextMultiple(n, PerSlot(limit, slots));
    }
  }

  /** So a debt is paid off: the quota covers a slot's share after exactly as many ticks as make up for it. */
  lemma {:induction false} CoversAfter(s: State, slots: nat, limit: nat, n: nat)
    requires slots > 0 && Settled(s, limit)
    ensures Run(s, slots, Ticks(limit, n)).quota >= PerSlot(limit, slots) <==>
            s.quota + n * PerSlot(limit, slots) >= PerSlot(limit, slots)
  {
    TicksRefill(s, slots, limit, n);
    PerSlotWithin(limit, limit, slots);
  }

  /** The quota has been at the limit at some moment of the stretch. */
  ghost predicate WasFull(s: State, slots: nat, actions: seq<Action>, limit: nat)
    requires slots > 0
  {
    exists n :: 0 <= n <= |actions| && Run(s, slots, actions[..n]).quota == limit
  }

  lemma FullStays(s: State, slots: nat, actions: seq<Action>, limit: nat)
    requires slots > 0 && actions != [] && WasFull(s, slots, actions[..|actions| - 1], limit)
    ensures WasFull(s, slots, actions, limit)
  {
    var front := actions[..|actions| - 1];
    var n :| 0 <= n <= |front| && Run(s, slots, front[..n]).quota == limit;
    assert front[..n] == actions[..n];
  }

  /** What goes in comes out: while the quota does not reach the limit, bytes granted and quota together grow by exactly
      a slot's share with every tick, whatever the callers ask for. */
  lemma {:induction false} NothingIsLost(s: State, slots: nat, actions: seq<Action>, limit: nat)
    requires slots > 0 && Settled(s, limit) && AllSteady(actions, limit)
    requires !WasFull(s, slots, actions, limit)
    ensures var r := Run(s, slots, actions);
            && s.ticks <= r.ticks
            && r.granted + r.quota == s.granted + s.quota + (r.ticks - s.ticks) * PerSlot(limit, slots)
  {
    if actions != [] {
      var front, a := actions[..|actions| - 1], actions[|actions| - 1];
      if WasFull(s, slots, front, limit) { FullStays(s, slots, actions, limit); }
      NothingIsLost(s, slots, front, limit);
      SteadyRun(s, slots, front, limit);
      var r, share := Run(s, slots, front), PerSlot(limit, slots);
      assert actions[..|actions|] == actions;
      assert Run(s, slots, actions).quota != limit;
      assert (r.ticks + 1 - s.ticks) * share == (r.ticks - s.ticks) * share + share;
    }
  }

  /** The ticks that find less than a slot's share. */
  function ShortTicks(s: State, slots: nat, actions: seq<Action>, limit: nat): nat
    requires slots > 0
  {
    if actions == [] then 0
    else
      var front := actions[..|actions| - 1];
      ShortTicks(s, slots, front, limit) +
      if actions[|actions| - 1].Tick? && Run(s, slots, front).quota < PerSlot(limit, slots) then 1 else 0
  }

  /** What such a tick adds for sure, and the most that is counted. */
  function Gain(limit: nat, slots: nat): nat
    requires slots > 0
  {
    if slots == 1 then 1 else PerSlot(limit, slots)
  }

  function Ceiling(limit: nat, slots: nat): int
    requires slots > 0
  {
    PerSlot(limit, slots) - 1 + Gain(limit, slots)
  }

  lemma CeilingWithin(limit: nat, slots: nat)
    requires slots > 0
    ensures Ceiling(limit, slots) <= limit
  {
    var share := PerSlot(limit, slots);
    assert slots * share <= limit;
    if slots > 1 { Doubled(slots, share); }
  }

  lemma Doubled(n: nat, a: nat)
    requires n > 1
    ensures 2 * a <= n * a
  {
    assert n * a == 2 * a + (n - 2) * a;
    assert (n - 2) * a >= 0;
  }

  /** Bytes granted and quota, counted up to the ceiling, never fall together, and grow with every short tick. */
  lemma StepGains(s: State, slots: nat, a: Action, limit: nat, gain: nat, ceiling: int)
    requires slots > 0 && Settled(s, limit) && Steady(a, limit) && PerSlot(limit, slots) > 0
    requires gain == Gain(limit, slots) && ceiling == Ceiling(limit, slots) <= limit
    ensures var r := Step(s, slots, a);
            r.granted + Least(r.quota, ceiling) >= s.granted + Least(s.quota, ceiling) +
              if a.Tick? && s.quota < PerSlot(limit, slots) then gain else 0
  {
  }

  lemma OnceMore(n: nat, a: nat)
    ensures n * (a + 1) == n * a + n
  {
  }

  /** The quota is short at only so many ticks: each costs a slot's share of bytes granted to somebody (a byte if there
      is one slot only), besides the debt at the start and what is left at the end. */
  lemma {:induction false} ShortTicksAreBounded(s: State, slots: nat, actions: seq<Action>, limit: nat)
    requires slots > 0 && Settled(s, limit) && AllSteady(actions, limit) && PerSlot(limit, slots) > 0
    ensures var r, ceiling := Run(s, slots, actions), Ceiling(limit, slots);
            Gain(limit, slots) * ShortTicks(s, slots, actions, limit) <=
            r.granted - s.granted + Least(r.quota, ceiling) - Least(s.quota, ceiling)
  {
    var gain, ceiling := Gain(limit, slots), Ceiling(limit, slots);
    if actions != [] {
      var front, a := actions[..|actions| - 1], actions[|actions| - 1];
      ShortTicksAreBounded(s, slots, front, limit);
      SteadyRun(s, slots, front, limit);
      CeilingWithin(limit, slots);
      StepGains(Run(s, slots, front), slots, a, limit, gain, ceiling);
      OnceMore(gain, ShortTicks(s, slots, front, limit));
    }
  }

  ghost predicate HasTick(actions: seq<Action>) { exists i :: 0 <= i < |actions| && actions[i].Tick? }

  lemma {:induction false} OnlyTicksRaise(s: State, slots: nat, actions: seq<Action>, limit: nat)
    requires slots > 0 && AllSteady(actions, limit) && !HasTick(actions)
    ensures Run(s, slots, actions).quota <= s.quota
  {
    if actions != [] {
      var front := actions[..|actions| - 1];
      assert !HasTick(front) by { assert forall i :: 0 <= i < |front| ==> front[i] == actions[i]; }
      OnlyTicksRaise(s, slots, front, limit);
    }
  }

  /** The first tick after a moment when the quota was short finds it short. */
  lemma {:induction false} FirstTickIsShort(s: State, slots: nat, actions: seq<Action>, limit: nat)
    requires slots > 0 && AllSteady(actions, limit) && HasTick(actions) && s.quota < PerSlot(limit, slots)
    ensures ShortTicks(s, slots, actions, limit) >= 1
  {
    var front := actions[..|actions| - 1];
    if HasTick(front) {
      FirstTickIsShort(s, slots, front, limit);
    } else {
      OnlyTicksRaise(s, slots, front, limit);
      assert forall i :: 0 <= i < |front| ==> front[i] == actions[i];
    }
  }

  /** A limit below the number of slots has no share for a tick: nothing is ever granted under it. */
  lemma {:induction false} TinyLimitStarves(limit: nat, slots: nat, actions: seq<Action>)
    requires 0 < limit < slots && AllSteady(actions, limit)
    ensures PerSlot(limit, slots) == 0
    ensures var r := Run(Initial(limit, slots), slots, actions); r.quota == 0 && r.granted == 0
  {
    if actions != [] {
      var front := actions[..|actions| - 1];
      TinyLimitStarves(limit, slots, front);
      SteadyRun(Initial(limit, slots), slots, front, limit);
    }
  }

  // -------------------------------------------------------------------------
  // When a caller has to wait

  /** The caller gets no bytes, and its first item does not fit what it may ask for next. */
  predicate Denied(limit: nat, slots: nat, quota: int, ask: Ask)
    requires slots > 0
  {
    var answer := Decide(limit, slots, quota, ask);
    answer.canSend !in {ask.all, ask.min, ask.first} && ask.first > answer.allowed
  }

  /** Exactly when a caller has to wait: the quota is used up, or it does not cover the first item although that is no
      larger than a slot's share. So an item of any size is sent, and a slot's share of quota is always enough. */
  lemma DeniedIff(limit: nat, slots: nat, quota: int, ask: Ask)
    requires slots > 0 && ask.first <= ask.min <= ask.all
    ensures Denied(limit, slots, quota, ask) <==>
            limit > 0 && ask.first > 0 && (quota <= 0 || quota < ask.first <= PerSlot(limit, slots))
    ensures quota > 0 && quota >= PerSlot(limit, slots) ==> !Denied(limit, slots, quota, ask)
  {
  }

  /** What is granted out of a positive quota: the whole or else the minimal part if the quota covers it; if it covers
      neither, the first item exactly when a slot's share would never do. The answer never promises more than is
      left. */
  lemma BestOffer(limit: nat, slots: nat, quota: int, ask: Ask)
    requires slots > 0 && limit > 0 && quota > 0 && ask.first <= ask.min <= ask.all
    ensures var a := Decide(limit, slots, quota, ask);
            && (ask.min <= quota ==>
                  && a.canSend in {ask.min, ask.all} && a.canSend <= quota
                  && (ask.all <= quota ==> a.canSend == ask.all))
            && (ask.min > quota ==> a.canSend == if ask.first > PerSlot(limit, slots) then ask.first else 0)
            && 0 <= a.allowed && (a.allowed > 0 ==> a.allowed == quota - a.canSend)
            && (a.canSend != ask.all && a.canSend < quota ==> a.allowed > 0)
  {
  }

  /** A slow start: from the start on the bytes granted are at most a slot's share, one more per tick, and an item;
      while the quota stays below the limit, granted bytes and quota are exactly these shares. */
  lemma {:induction false} StartsSlowly(limit: nat, slots: nat, actions: seq<Action>, item: nat)
    requires slots > 0 && limit > 0 && AllSteady(actions, limit)
    requires forall i :: 0 <= i < |actions| ==> Within(actions[i], limit, item)
    ensures var r, share := Run(Initial(limit, slots), slots, actions), PerSlot(limit, slots);
            && r.granted <= share + r.ticks * share + item
            && (!WasFull(Initial(limit, slots), slots, actions, limit) ==>
                  r.granted + r.quota == share + r.ticks * share)
  {
    PerSlotWithin(limit, limit, slots);
    var s := Initial(limit, slots);
    RunMetered(s, slots, actions, limit, item);
    if !WasFull(s, slots, actions, limit) { NothingIsLost(s, slots, actions, limit); }
  }

  lemma FrontOfConcat(before: seq<Action>, actions: seq<Action>)
    requires actions != []
    ensures before + actions == (before + actions[..|actions| - 1]) + [actions[|actions| - 1]]
  {
  }

  lemma RunUnfolds(s: State, slots: nat, all: seq<Action>, front: seq<Action>, last: Action)
    requires slots > 0 && all == front + [last]
    ensures Run(s, slots, all) == Step(Run(s, slots, front), slots, last)
  {
    assert all[..|all| - 1] == front;
  }

  /** A new limit rules at once: from then on, however callers and ticker interleave, the limit in force is the new one
      and the quota keeps to it. */
  lemma {:induction false} NewLimitRules(s: State, slots: nat, limit: nat, actions: seq<Action>)
    requires slots > 0 && limit > 0 && AllSteady(actions, limit)
    ensures var r := Run(s, slots, [SetLimit(limit), Adjust(limit)] + actions);
            r.limit == limit && Settled(r, limit)
    ensures Run(s, slots, [SetLimit(limit), Adjust(limit)]).quota == Least(s.quota, limit)
  {
    var set2 := [SetLimit(limit), Adjust(limit)];
    RunUnfolds(s, slots, [SetLimit(limit)], [], SetLimit(limit));
    RunUnfolds(s, slots, set2, [SetLimit(limit)], Adjust(limit));
    if actions == [] {
      assert set2 + actions == set2;
    } else {
      var front := actions[..|actions| - 1];
      NewLimitRules(s, slots, limit, front);
      FrontOfConcat(set2, actions);
      RunUnfolds(s, slots, set2 + actions, set2 + front, actions[|actions| - 1]);
      SteadyStep(Run(s, slots, set2 + front), slots, actions[|actions| - 1], limit);
    }
  }

  // -------------------------------------------------------------------------
  // The object

  class Throttler {
    var bandwidthLimit: nat
    var quota: int
    const slots: nat
    ghost var past: set<nat>
    ghost var granted: nat
    ghost var ticks: nat

    ghost function View(): State
      reads this
    {
      State(bandwidthLimit, past, quota, granted, ticks)
    }

    ghost predicate Valid()
      reads this
    {
      slots > 0 && bandwidthLimit in past
    }

    constructor (limit: nat, slots: nat)
      requires slots > 0
      ensures Valid() && this.slots == slots && View() == Initial(limit, slots)
    {
      bandwidthLimit, quota, this.slots := limit, limit / slots, slots;
      past, granted, ticks := {limit}, 0, 0;
    }

    /** Throttle, when nobody else changes the quota between its load and its swap. */
    method Throttle(numberOfBytes: nat, minNumberOfBytes: nat, numberOfBytesOfFirstItem: nat)
      returns (bytesCanSend: int, bytesAllowed: int)
      requires Valid()
      modifies this`quota, this`granted
      ensures Valid()
      ensures var ask := Ask(numberOfBytes, minNumberOfBytes, numberOfBytesOfFirstItem);
              && Answer(bytesCanSend, bytesAllowed) ==
                 Decide(bandwidthLimit, slots, old(quota), ask)
              && View() == Step(old(View()), slots, Grant(bandwidthLimit, ask))
    {
      if bandwidthLimit == 0 {
        granted := granted + numberOfBytes;
        return numberOfBytes, 0;
      }
      if quota <= 0 {
        return 0, 0;
      }
      bytesCanSend, bytesAllowed := 0, quota;
      if quota >= numberOfBytes {
        bytesCanSend, bytesAllowed := numberOfBytes, 0;
      } else if quota >= minNumberOfBytes {
        bytesCanSend, bytesAllowed := minNumberOfBytes, quota - minNumberOfBytes;
      } else if bandwidthLimit / slots < numberOfBytesOfFirstItem {
        var left := quota - numberOfBytesOfFirstItem;
        bytesCanSend, bytesAllowed := numberOfBytesOfFirstItem, if left > 0 then left else 0;
      }
      quota := quota - bytesCanSend;
      granted := granted + bytesCanSend;
    }

    /** updateOnce; `wakes` says whether the callers in Wait are woken. */
    method UpdateOnce() returns (wakes: bool)
      requires Valid()
      modifies this`quota, this`ticks
      ensures Valid() && View() == Step(old(View()), slots, Tick(bandwidthLimit))
      ensures wakes <==> quota > 0
    {
      var refilled := quota + bandwidthLimit / slots;
      if refilled > bandwidthLimit {
        refilled := bandwidthLimit;
      }
      quota := refilled;
      ticks := ticks + 1;
      wakes := refilled > 0;
    }

    /** A new limit, and the quota cut down to it. */
    method UpdateLimit(limit: nat)
      requires Valid()
      modifies this`bandwidthLimit, this`past, this`quota
      ensures Valid()
      ensures View() == Step(Step(old(View()), slots, SetLimit(limit)), slots, Adjust(limit))
    {
      bandwidthLimit, past := limit, past + {limit};
      if quota > limit {
        quota := limit;
      }
    }
  }
}
