/**
 The request buffer's flow control: a sender waits until few enough slots are occupied, evictions wake it. The check of
 the sender and the notification of an eviction are separate atomic operations, so a wake-up could get lost between
 them; it does not. The machine runs the buffer's own actions, so the count is the buffer's.
 */
module FlowControl {
  import RequestBuffer

  /** The sender between the creation of its channel and its check, or waiting on the channel. */
  datatype Sender = Away | Armed | Waiting

  /** `token` is the content of the current notification channel, `checks` the evictions that have lowered the count and
      not looked at the channel yet, `closed` that the nozzle has closed the buffer. */
  datatype State = State(buffer: RequestBuffer.State, channel: bool, token: bool, closed: bool, sender: Sender,
                         checks: nat)

  datatype Action = Buffer(a: RequestBuffer.Action) | Arm | Look | Wake | Notify | Close

  function Init(size: nat): State { State(RequestBuffer.Init(size), false, false, false, Away, 0) }

  function BufferStep(s: State, a: RequestBuffer.Action): State {
    var buffer := RequestBuffer.Step(s.buffer, a);
    s.(buffer := buffer, checks := if buffer.occupied < s.buffer.occupied then s.checks + 1 else s.checks)
  }

  function Step(threshold: int, s: State, a: Action): State {
    match a
    case Buffer(a) => BufferStep(s, a)
    case Arm => if s.sender.Away? then s.(channel := true, token := false, sender := Armed) else s
    case Look => if s.sender.Armed? then s.(sender := if s.buffer.occupied <= threshold then Away else Waiting) else s
    case Wake =>
      if s.sender.Waiting? && (s.token || s.closed) then s.(channel := false, token := false, sender := Away) else s
    case Notify =>
      if s.checks == 0 then s
      else s.(checks := s.checks - 1, token := s.token || (s.channel && s.buffer.occupied <= threshold))
    case Close => s.(closed := true)
  }

  function Run(size: nat, threshold: int, actions: seq<Action>): State {
    if actions == [] then Init(size)
    else Step(threshold, Run(size, threshold, actions[..|actions| - 1]), actions[|actions| - 1])
  }

  /** What the buffer alone does in a run. */
  function OfBuffer(actions: seq<Action>): seq<RequestBuffer.Action> {
    if actions == [] then []
    else
      var last := actions[|actions| - 1];
      OfBuffer(actions[..|actions| - 1]) + if last.Buffer? then [last.a] else []
  }

  /** Flow control does not interfere with the buffer: its part of a run is a run of the buffer. */
  lemma {:induction false} BufferRuns(size: nat, threshold: int, actions: seq<Action>)
    ensures Run(size, threshold, actions).buffer == RequestBuffer.Run(size, OfBuffer(actions))
  {
    if actions != [] {
      var front, last := actions[..|actions| - 1], actions[|actions| - 1];
      BufferRuns(size, threshold, front);
      if last.Buffer? {
        assert (OfBuffer(front) + [last.a])[..|OfBuffer(front)|] == OfBuffer(front);
      } else {
        assert OfBuffer(front) + [] == OfBuffer(front);
      }
    }
  }

  /** Only an eviction lowers the count, by one. */
  lemma OnlyEvictionLowers(s: RequestBuffer.State, a: RequestBuffer.Action)
    ensures RequestBuffer.Step(s, a).occupied < s.occupied ==>
              a.FinishEvict? && s.receiver.Evicting? && RequestBuffer.Step(s, a).occupied == s.occupied - 1
  {
  }

  predicate Inv(threshold: int, s: State) {
    && (!s.sender.Away? ==> s.channel)
    && (s.sender.Waiting? && s.buffer.occupied <= threshold ==> s.token || s.checks > 0)
  }

  lemma {:induction false} RunKeeps(size: nat, threshold: int, actions: seq<Action>)
    ensures Inv(threshold, Run(size, threshold, actions))
  {
    if actions != [] { RunKeeps(size, threshold, actions[..|actions| - 1]); }
  }

  /** No wake-up is lost: when few enough slots are occupied, a waiting sender has been notified, or an eviction that is
      still under way will notify it. */
  lemma {:induction false} NoLostWakeUp(size: nat, threshold: int, actions: seq<Action>)
    ensures var s := Run(size, threshold, actions);
            s.sender.Waiting? && s.buffer.occupied <= threshold ==>
              s.token || (s.checks > 0 && Step(threshold, s, Notify).token)
  {
    RunKeeps(size, threshold, actions);
  }

  /** In terms of the slots: when the receiver is idle, all notifications are done and as many slots as the threshold
      asks for are free or being filled, nobody is left waiting. */
  lemma {:induction false} NobodyLeftWaiting(size: nat, threshold: int, actions: seq<Action>)
    requires size < RequestBuffer.SEQUENCES
    ensures var s := Run(size, threshold, actions);
            s.buffer.receiver.Idle? && s.checks == 0 && |s.buffer.free| + |s.buffer.taken| >= size - threshold ==>
              !s.sender.Waiting? || Step(threshold, s, Wake).sender.Away?
  {
    RunKeeps(size, threshold, actions);
    BufferRuns(size, threshold, actions);
    RequestBuffer.RunKeeps(size, OfBuffer(actions));
  }

  /** Since the sender last armed its channel there was a moment with few enough slots occupied. */
  function LowSince(size: nat, threshold: int, actions: seq<Action>): bool {
    if actions == [] then false
    else
      var front, last := actions[..|actions| - 1], actions[|actions| - 1];
      var low := Run(size, threshold, actions).buffer.occupied <= threshold;
      if last.Arm? && Run(size, threshold, front).sender.Away? then low else low || LowSince(size, threshold, front)
  }

  lemma StepLow(threshold: int, s: State, a: Action, low: bool)
    requires s.token ==> low
    ensures var r := Step(threshold, s, a);
            var now := r.buffer.occupied <= threshold;
            r.token ==> now || (low && !(a.Arm? && s.sender.Away?))
  {
  }

  lemma {:induction false} TokenMeansLow(size: nat, threshold: int, actions: seq<Action>)
    ensures Run(size, threshold, actions).token ==> LowSince(size, threshold, actions)
  {
    if actions != [] {
      var front := actions[..|actions| - 1];
      TokenMeansLow(size, threshold, front);
      StepLow(threshold, Run(size, threshold, front), actions[|actions| - 1], LowSince(size, threshold, front));
    }
  }

  /** A sender passes only when it may: whoever leaves flow control did so since few enough slots were occupied at some
      moment after it came, or since the buffer was closed; and who looks at such a moment is not made to wait. */
  lemma {:induction false} SenderPassesWhenLow(size: nat, threshold: int, actions: seq<Action>, a: Action)
    ensures var s := Run(size, threshold, actions); var r := Step(threshold, s, a);
            && (!s.sender.Away? && r.sender.Away? ==>
                  s.closed || s.buffer.occupied <= threshold || LowSince(size, threshold, actions))
            && (a == Look && s.sender.Armed? ==> (r.sender.Away? <==> s.buffer.occupied <= threshold))
            && (r.sender.Waiting? && !s.sender.Waiting? ==> s.buffer.occupied > threshold)
  {
    TokenMeansLow(size, threshold, actions);
  }

  lemma RunUnfolds(size: nat, threshold: int, all: seq<Action>, front: seq<Action>, last: Action)
    requires all == front + [last]
    ensures Run(size, threshold, all) == Step(threshold, Run(size, threshold, front), last)
  {
    assert all[..|all| - 1] == front;
  }

  lemma FrontOfConcat(before: seq<Action>, more: seq<Action>)
    requires more != []
    ensures before + more == (before + more[..|more| - 1]) + [more[|more| - 1]]
  {
  }

  lemma StaysClosed(threshold: int, s: State, a: Action)
    ensures s.closed || a == Close ==> Step(threshold, s, a).closed
  {
  }

  lemma {:induction false} ClosedStays(size: nat, threshold: int, actions: seq<Action>, more: seq<Action>)
    ensures Run(size, threshold, actions + [Close] + more).closed
    decreases |more|
  {
    var closing := actions + [Close];
    if more == [] {
      assert closing + more == closing;
      RunUnfolds(size, threshold, closing, actions, Close);
      StaysClosed(threshold, Run(size, threshold, actions), Close);
    } else {
      var front := more[..|more| - 1];
      ClosedStays(size, threshold, actions, front);
      FrontOfConcat(closing, more);
      RunUnfolds(size, threshold, closing + more, closing + front, more[|more| - 1]);
      StaysClosed(threshold, Run(size, threshold, closing + front), more[|more| - 1]);
    }
  }

  /** Once the buffer is closed, nobody is held up any more: whoever waits, then or later, can go. */
  lemma {:induction false} ClosedHoldsNobody(size: nat, threshold: int, actions: seq<Action>, more: seq<Action>)
    ensures var s := Run(size, threshold, actions + [Close] + more);
            s.sender.Waiting? ==> Step(threshold, s, Wake).sender.Away?
  {
    ClosedStays(size, threshold, actions, more);
  }
}
