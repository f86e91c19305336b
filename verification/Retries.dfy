/**
 What a slot of the request buffer remembers about its request, told by what happened to it: which request was put
 there and when it last went out, how many resends were booked for it since it was put there or reset, and whether it
 was given up. From it follows exactly when the timer resends a request and when it gives up.
 */
module Retries {
  import opened Common
  import opened RequestBuffer

  /** The history of what is in a slot. */
  datatype Tally = Tally(item: nat, reservation: int, booked: nat, time: int, gaveUp: bool)

  const Fresh := Tally(0, 0, 0, 0, false)

  /** The slot holds a request and is not being evicted. */
  predicate Open(s: State, pos: nat) { pos < |s.slots| && !Locked(s, pos) && s.slots[pos].req.Some? }

  /** A resend of the slot's request has gone out and is booked. */
  predicate Books(s: State, pos: nat, k: nat, sent: bool) {
    sent && k < |s.resends| && s.resends[k].of.pos == pos && !Locked(s, pos) && StillCurrent(s, s.resends[k])
  }

  function Note(s: State, pos: nat, t: Tally, a: Action): Tally {
    match a
    case Fill(p, item, reservation, now) =>
      if p == pos && pos in s.taken && !Locked(s, pos) then Tally(item, reservation, 0, now, false) else t
    case BeginResend(p, reset, limits, now) =>
      if p != pos || !Open(s, pos) then t
      else if reset then t.(booked := 0, gaveUp := false)
      else t.(gaveUp := t.gaveUp || t.booked > limits.maxRetry)
    case EndResend(k, sent, now) =>
      if !Books(s, pos, k, sent) then t
      else t.(time := now, booked := if s.resends[k].reset then t.booked else t.booked + 1)
    case _ => t
  }

  function TallyOf(size: nat, actions: seq<Action>, pos: nat): Tally {
    if actions == [] then Fresh
    else
      var front := actions[..|actions| - 1];
      Note(Run(size, front), pos, TallyOf(size, front, pos), actions[|actions| - 1])
  }

  /** An occupied slot says what its history says. */
  predicate Tells(slot: Slot, t: Tally) {
    slot.req.Some? ==>
      && slot.req.value.item == t.item && slot.reservation == t.reservation
      && slot.retries == t.booked && slot.sentTime == t.time && slot.timedOut == t.gaveUp
  }

  // -------------------------------------------------------------------------
  // Every action keeps slot and history together

  lemma FillTells(s: State, pos: nat, t: Tally, a: Action)
    requires Inv(s) && pos < |s.slots| && Tells(s.slots[pos], t) && a.Fill?
    ensures Tells(FillStep(s, a.pos, a.item, a.reservation, a.now).slots[pos], Note(s, pos, t, a))
  {
    if a.pos == pos && pos in s.taken { assert s.slots[pos] == EmptySlot; }
  }

  lemma BeginTells(s: State, pos: nat, t: Tally, a: Action)
    requires Shaped(s) && pos < |s.slots| && Tells(s.slots[pos], t) && a.BeginResend?
    ensures Tells(BeginResendStep(s, a.pos, a.reset, a.limits, a.now).slots[pos], Note(s, pos, t, a))
  {
  }

  lemma EndTells(s: State, pos: nat, t: Tally, a: Action)
    requires Shaped(s) && pos < |s.slots| && Tells(s.slots[pos], t) && a.EndResend?
    ensures Tells(EndResendStep(s, a.k, a.sent, a.now).slots[pos], Note(s, pos, t, a))
  {
  }

  lemma RespondTells(s: State, pos: nat, t: Tally, to: Occupancy)
    requires Shaped(s) && pos < |s.slots| && Tells(s.slots[pos], t)
    ensures Tells(RespondStep(s, to).slots[pos], t)
  {
  }

  lemma StepTells(s: State, pos: nat, t: Tally, a: Action)
    requires Inv(s) && pos < |s.slots| && Tells(s.slots[pos], t)
    ensures Tells(Step(s, a).slots[pos], Note(s, pos, t, a))
  {
    match a {
      case Fill(_, _, _, _) => FillTells(s, pos, t, a);
      case BeginResend(_, _, _, _) => BeginTells(s, pos, t, a);
      case EndResend(_, _, _) => EndTells(s, pos, t, a);
      case Respond(to) => RespondTells(s, pos, t, to);
      case FinishEvict => assert FinishEvictStep(s).slots == s.slots;
      case _ =>
    }
  }

  /** In every run an occupied slot holds the request that was put there, the time it last went out, the number of
      resends booked since it was put there or reset, and whether it was given up since. */
  lemma {:induction false} SlotTells(size: nat, actions: seq<Action>, pos: nat)
    requires size < SEQUENCES && pos < size
    ensures Tells(Run(size, actions).slots[pos], TallyOf(size, actions, pos))
  {
    if actions == [] {
      assert Init(size).slots[pos] == EmptySlot;
    } else {
      var front := actions[..|actions| - 1];
      RunKeeps(size, front);
      SlotTells(size, front, pos);
      StepTells(Run(size, front), pos, TallyOf(size, front, pos), actions[|actions| - 1]);
    }
  }

  /** Exactly what a pass of the timer does to an occupied slot that is not being evicted and was not given up: it gives
      up if more resends were booked than allowed; otherwise it resends if the response is overdue, and if not it does
      nothing. A slot that was given up is left alone until it is reset or filled again. */
  lemma {:induction false} TimerDecides(size: nat, actions: seq<Action>, pos: nat, limits: Limits, now: int)
    requires size < SEQUENCES && pos < size && Open(Run(size, actions), pos)
    ensures var s, t := Run(size, actions), TallyOf(size, actions, pos);
            var r := Step(s, BeginResend(pos, false, limits, now));
            if t.gaveUp then r == s
            else if t.booked > limits.maxRetry then
              && r.slots[pos].timedOut && r.resends == s.resends
            else if now - t.time > TimeoutDuration(limits, t.booked) then
              && r.resends == s.resends + [Resend(Occupancy(pos, s.turns[pos]), s.sequences[pos], false)]
              && r.slots == s.slots
            else r == s
  {
    SlotTells(size, actions, pos);
  }

  // -------------------------------------------------------------------------
  // How often a request is resent

  /** A resend of the timer is under way. */
  ghost predicate TimerBusy(resends: seq<Resend>) { exists k :: 0 <= k < |resends| && !resends[k].reset }

  /** At most one resend of the timer is under way. */
  ghost predicate OneTimer(resends: seq<Resend>) {
    forall i, j :: 0 <= i < j < |resends| ==> resends[i].reset || resends[j].reset
  }

  /** One goroutine makes the passes of the timer, one after the other, and allows at most `most` retries. */
  ghost predicate TimerAlone(size: nat, actions: seq<Action>, most: nat) {
    forall n :: 0 <= n < |actions| && actions[n].BeginResend? && !actions[n].reset ==>
      !TimerBusy(Run(size, actions[..n]).resends) && actions[n].limits.maxRetry <= most
  }

  /** The timer is resending the request in this slot. */
  ghost predicate TimerAt(resends: seq<Resend>, pos: nat) {
    exists k :: 0 <= k < |resends| && !resends[k].reset && resends[k].of.pos == pos
  }

  /** Resends booked for the slot, and the one under way. */
  ghost predicate Within(resends: seq<Resend>, booked: nat, pos: nat, most: nat) {
    booked + (if TimerAt(resends, pos) then 1 else 0) <= most + 1
  }

  lemma BeginWithin(resends: seq<Resend>, booked: nat, pos: nat, most: nat, next: Resend)
    requires OneTimer(resends) && Within(resends, booked, pos, most)
    requires next.reset || !TimerBusy(resends)
    requires !next.reset && next.of.pos == pos ==> booked <= most
    ensures OneTimer(resends + [next]) && Within(resends + [next], booked, pos, most)
  {
    var more := resends + [next];
    forall i, j | 0 <= i < j < |more| ensures more[i].reset || more[j].reset {
      assert more[i] == resends[i];
      if j < |resends| { assert more[j] == resends[j]; }
    }
    if TimerAt(more, pos) {
      var k :| 0 <= k < |more| && !more[k].reset && more[k].of.pos == pos;
      assert more[k] == if k < |resends| then resends[k] else next;
      assert k < |resends| ==> TimerAt(resends, pos);
    }
  }

  lemma EndWithin(resends: seq<Resend>, booked: nat, pos: nat, most: nat, k: nat)
    requires OneTimer(resends) && Within(resends, booked, pos, most) && k < |resends|
    ensures var rest := resends[..k] + resends[k + 1..];
            && OneTimer(rest) && Within(rest, booked, pos, most)
            && (!resends[k].reset && resends[k].of.pos == pos ==> Within(rest, booked + 1, pos, most))
  {
    var rest := resends[..k] + resends[k + 1..];
    forall i | 0 <= i < |rest| ensures rest[i] == resends[if i < k then i else i + 1] { }
    if TimerAt(rest, pos) {
      var i :| 0 <= i < |rest| && !rest[i].reset && rest[i].of.pos == pos;
      var j := if i < k then i else i + 1;
      assert !resends[j].reset && resends[j].of.pos == pos;
    }
    if !resends[k].reset && resends[k].of.pos == pos { assert TimerAt(resends, pos); }
  }

  lemma StepResends(s: State, a: Action)
    ensures Shaped(s) && !a.BeginResend? && !a.EndResend? ==> Step(s, a).resends == s.resends
  {
  }

  lemma BeginStepWithin(s: State, t: Tally, pos: nat, most: nat, a: Action)
    requires Shaped(s) && pos < |s.slots| && Tells(s.slots[pos], t)
    requires OneTimer(s.resends) && Within(s.resends, t.booked, pos, most)
    requires a.BeginResend? && (a.reset || (!TimerBusy(s.resends) && a.limits.maxRetry <= most))
    ensures var r := BeginResendStep(s, a.pos, a.reset, a.limits, a.now);
            OneTimer(r.resends) && Within(r.resends, Note(s, pos, t, a).booked, pos, most)
  {
    var r := BeginResendStep(s, a.pos, a.reset, a.limits, a.now);
    if r.resends != s.resends {
      var next := Resend(Occupancy(a.pos, s.turns[a.pos]), s.sequences[a.pos], a.reset);
      BeginWithin(s.resends, t.booked, pos, most, next);
      assert r.resends == s.resends + [next];
    }
  }

  lemma EndStepWithin(s: State, t: Tally, pos: nat, most: nat, a: Action)
    requires Shaped(s) && OneTimer(s.resends) && Within(s.resends, t.booked, pos, most) && a.EndResend?
    ensures var r := EndResendStep(s, a.k, a.sent, a.now);
            OneTimer(r.resends) && Within(r.resends, Note(s, pos, t, a).booked, pos, most)
  {
    if a.k < |s.resends| { EndWithin(s.resends, t.booked, pos, most, a.k); }
  }

  lemma StepWithin(s: State, t: Tally, pos: nat, most: nat, a: Action)
    requires Shaped(s) && pos < |s.slots| && Tells(s.slots[pos], t)
    requires OneTimer(s.resends) && Within(s.resends, t.booked, pos, most)
    requires a.BeginResend? && !a.reset ==> !TimerBusy(s.resends) && a.limits.maxRetry <= most
    ensures OneTimer(Step(s, a).resends) && Within(Step(s, a).resends, Note(s, pos, t, a).booked, pos, most)
  {
    if a.BeginResend? {
      BeginStepWithin(s, t, pos, most, a);
    } else if a.EndResend? {
      EndStepWithin(s, t, pos, most, a);
    } else {
      StepResends(s, a);
    }
  }

  /** In every run with one timer: no request is resent by it more than `most` + 1 times since it was put into its slot
      or reset. Together with `TimerDecides`, the pass after that gives it up. */
  lemma {:induction false} ResendsAreBounded(size: nat, actions: seq<Action>, pos: nat, most: nat)
    requires size < SEQUENCES && pos < size && TimerAlone(size, actions, most)
    ensures TallyOf(size, actions, pos).booked <= most + 1
    ensures OneTimer(Run(size, actions).resends)
    ensures Within(Run(size, actions).resends, TallyOf(size, actions, pos).booked, pos, most)
  {
    if actions != [] {
      var front, a := actions[..|actions| - 1], actions[|actions| - 1];
      forall n | 0 <= n < |front| && front[n].BeginResend? && !front[n].reset
        ensures !TimerBusy(Run(size, front[..n]).resends) && front[n].limits.maxRetry <= most
      {
        assert front[..n] == actions[..n] && front[n] == actions[n];
      }
      ResendsAreBounded(size, front, pos, most);
      SlotTells(size, front, pos);
      RunKeeps(size, front);
      StepWithin(Run(size, front), TallyOf(size, front, pos), pos, most, a);
    }
  }
}
