/**
 The rollback handshake of a DCP stream: which stream requests are sent, and
 which of the producer's rollback answers are acted upon. The helper's two
 tables are related to a log of everything that happened since its creation.
 */
module RollbackHandshake {

  type Version = v: nat | v <= MaxVersion
  type Seqno = nat

  const MaxVersion: nat := 65535

  /** What the helper did: sent a request, acted on a rollback, ignored one for an active stream, started over. */
  datatype Entry =
    | Sent(version: Version, seqno: Seqno)
    | Accepted(version: Version, seqno: Seqno)
    | Dropped(version: Version, seqno: Seqno)
    | Reset

  datatype State = State(sent: map<Version, Seqno>, acked: set<Seqno>, disabled: bool, active: bool, log: seq<Entry>)

  datatype Action =
    | Register(version: Version, seqno: Seqno)
    | Rollback(version: Version)
    | Success
    | Disable
    | StreamState(active: bool)

  const Initial := State(map[], {}, false, false, [])

  // -------------------------------------------------------------------------
  // The operations

  /** registerRequest tells its caller not to send. */
  predicate AlreadyAcked(s: State, seqno: Seqno) { s.active || seqno in s.acked }

  function Registered(s: State, version: Version, seqno: Seqno): State {
    if s.disabled || AlreadyAcked(s, seqno) then s
    else s.(sent := s.sent[version := seqno], log := s.log + [Sent(version, seqno)])
  }

  /** processRollbackResponse: ignore or act, and whether an error is reported besides. */
  datatype Outcome = Outcome(ignore: bool, error: bool)

  function Respond(s: State, version: Version): Outcome {
    if s.disabled then Outcome(false, true)
    else if s.active then Outcome(true, false)
    else if version !in s.sent then Outcome(true, true)
    else Outcome(s.sent[version] in s.acked, s.sent[version] == 0)
  }

  function RolledBack(s: State, version: Version): State {
    if s.disabled || version !in s.sent then s
    else
      var seqno := s.sent[version];
      if s.active then s.(acked := s.acked + {seqno}, log := s.log + [Dropped(version, seqno)])
      else if seqno in s.acked then s
      else s.(acked := s.acked + {seqno}, log := s.log + [Accepted(version, seqno)])
  }

  function Succeeded(s: State): State {
    if s.disabled then s else s.(sent := map[], acked := {}, log := s.log + [Reset])
  }

  function Step(s: State, a: Action): State {
    match a
    case Register(version, seqno) => Registered(s, version, seqno)
    case Rollback(version) => RolledBack(s, version)
    case Success => Succeeded(s)
    case Disable => s.(disabled := true)
    case StreamState(active) => s.(active := active)
  }

  function Run(actions: seq<Action>): State {
    if actions == [] then Initial
    else Step(Run(actions[..|actions| - 1]), actions[|actions| - 1])
  }

  // -------------------------------------------------------------------------
  // What the tables mean in terms of the log

  predicate Answers(e: Entry, seqno: Seqno) { (e.Accepted? || e.Dropped?) && e.seqno == seqno }

  predicate Supersedes(e: Entry, version: Version) { e.Reset? || (e.Sent? && e.version == version) }

  /** The last request sent under this version since the last reset was for this seqno. */
  ghost predicate Outstanding(log: seq<Entry>, version: Version, seqno: Seqno) {
    exists i :: 0 <= i < |log| && log[i] == Sent(version, seqno) &&
                forall j :: i < j < |log| ==> !Supersedes(log[j], version)
  }

  /** A rollback for this seqno has been taken in since the last reset. */
  ghost predicate Answered(log: seq<Entry>, seqno: Seqno) {
    exists i :: 0 <= i < |log| && Answers(log[i], seqno) && forall j :: i < j < |log| ==> !log[j].Reset?
  }

  lemma OutstandingExtends(log: seq<Entry>, e: Entry, version: Version, seqno: Seqno)
    ensures Outstanding(log + [e], version, seqno) <==>
            e == Sent(version, seqno) || (Outstanding(log, version, seqno) && !Supersedes(e, version))
  {
    var more := log + [e];
    if Outstanding(log, version, seqno) && !Supersedes(e, version) {
      var i :| 0 <= i < |log| && log[i] == Sent(version, seqno) &&
          forall j :: i < j < |log| ==> !Supersedes(log[j], version);
      assert more[i] == Sent(version, seqno);
    }
    if e == Sent(version, seqno) { assert more[|log|] == e; }
    if Outstanding(more, version, seqno) {
      var i :| 0 <= i < |more| && more[i] == Sent(version, seqno) &&
          forall j :: i < j < |more| ==> !Supersedes(more[j], version);
      if i < |log| {
        assert more[|log|] == e;
        assert log[i] == Sent(version, seqno);
        assert forall j :: i < j < |log| ==> log[j] == more[j];
      }
    }
  }

  lemma AnsweredExtends(log: seq<Entry>, e: Entry, seqno: Seqno)
    ensures Answered(log + [e], seqno) <==> Answers(e, seqno) || (Answered(log, seqno) && !e.Reset?)
  {
    var more := log + [e];
    if Answered(log, seqno) && !e.Reset? {
      var i :| 0 <= i < |log| && Answers(log[i], seqno) && forall j :: i < j < |log| ==> !log[j].Reset?;
      assert Answers(more[i], seqno);
    }
    if Answers(e, seqno) { assert more[|log|] == e; }
    if Answered(more, seqno) {
      var i :| 0 <= i < |more| && Answers(more[i], seqno) && forall j :: i < j < |more| ==> !more[j].Reset?;
      if i < |log| {
        assert more[|log|] == e;
        assert Answers(log[i], seqno);
        assert forall j :: i < j < |log| ==> log[j] == more[j];
      }
    }
  }

  predicate Maps(sent: map<Version, Seqno>, version: Version, seqno: Seqno) {
    version in sent && sent[version] == seqno
  }

  ghost predicate SentTable(s: State) {
    forall version, seqno :: Maps(s.sent, version, seqno) <==> Outstanding(s.log, version, seqno)
  }

  ghost predicate AckedTable(s: State) {
    forall seqno :: seqno in s.acked <==> Answered(s.log, seqno)
  }

  /** No entry of the log acts on, or sends, a seqno that was answered before it since the last reset. */
  ghost predicate Once(log: seq<Entry>) {
    forall j :: 0 <= j < |log| && (log[j].Accepted? || log[j].Sent?) ==> !Answered(log[..j], log[j].seqno)
  }

  /** Every rollback acted upon answers the last request sent under its version. */
  ghost predicate Matched(log: seq<Entry>) {
    forall j :: 0 <= j < |log| && log[j].Accepted? ==> Outstanding(log[..j], log[j].version, log[j].seqno)
  }

  ghost predicate Inv(s: State) { SentTable(s) && AckedTable(s) && Once(s.log) && Matched(s.log) }

  lemma OnceExtends(log: seq<Entry>, e: Entry)
    requires Once(log) && (e.Accepted? || e.Sent? ==> !Answered(log, e.seqno))
    ensures Once(log + [e])
  {
    var more := log + [e];
    forall j | 0 <= j < |more| && (more[j].Accepted? || more[j].Sent?)
      ensures !Answered(more[..j], more[j].seqno)
    {
      assert more[..j] == log[..j];
      assert j < |log| ==> more[j] == log[j];
      assert j == |log| ==> log[..j] == log;
    }
  }

  lemma MatchedExtends(log: seq<Entry>, e: Entry)
    requires Matched(log) && (e.Accepted? ==> Outstanding(log, e.version, e.seqno))
    ensures Matched(log + [e])
  {
    var more := log + [e];
    forall j | 0 <= j < |more| && more[j].Accepted?
      ensures Outstanding(more[..j], more[j].version, more[j].seqno)
    {
      assert more[..j] == log[..j];
      assert j < |log| ==> more[j] == log[j];
      assert j == |log| ==> log[..j] == log;
    }
  }

  lemma SentTableExtends(s: State, t: State, e: Entry)
    requires SentTable(s) && t.log == s.log + [e]
    requires forall v, q :: Maps(t.sent, v, q) <==> e == Sent(v, q) || (Maps(s.sent, v, q) && !Supersedes(e, v))
    ensures SentTable(t)
  {
    forall v, q ensures Maps(t.sent, v, q) <==> Outstanding(t.log, v, q) { OutstandingExtends(s.log, e, v, q); }
  }

  lemma AckedTableExtends(s: State, t: State, e: Entry)
    requires AckedTable(s) && t.log == s.log + [e]
    requires forall q :: q in t.acked <==> Answers(e, q) || (q in s.acked && !e.Reset?)
    ensures AckedTable(t)
  {
    forall q ensures q in t.acked <==> Answered(t.log, q) { AnsweredExtends(s.log, e, q); }
  }

  lemma StepKeeps(s: State, a: Action)
    requires Inv(s)
    ensures Inv(Step(s, a))
  {
    var t := Step(s, a);
    if t.log != s.log {
      var e := t.log[|t.log| - 1];
      assert t.log == s.log + [e];
      assert e.Accepted? ==> Maps(s.sent, e.version, e.seqno);
      OnceExtends(s.log, e);
      MatchedExtends(s.log, e);
      SentTableExtends(s, t, e);
      AckedTableExtends(s, t, e);
    }
  }

  lemma {:induction false} RunKeeps(actions: seq<Action>)
    ensures Inv(Run(actions))
  {
    if actions != [] {
      RunKeeps(actions[..|actions| - 1]);
      StepKeeps(Run(actions[..|actions| - 1]), actions[|actions| - 1]);
    }
  }

  // -------------------------------------------------------------------------
  // Over every run

  ghost predicate ResetBetween(log: seq<Entry>, i: int, j: int) {
    exists k :: 0 <= i < k < j < |log| && log[k].Reset?
  }

  lemma OutstandingUnique(log: seq<Entry>, version: Version, a: Seqno, b: Seqno)
    requires Outstanding(log, version, a) && Outstanding(log, version, b)
    ensures a == b
  {
    var i :| 0 <= i < |log| && log[i] == Sent(version, a) && forall j :: i < j < |log| ==> !Supersedes(log[j], version);
    var k :| 0 <= k < |log| && log[k] == Sent(version, b) && forall j :: k < j < |log| ==> !Supersedes(log[j], version);
    assert i < k ==> Supersedes(log[k], version);
    assert k < i ==> Supersedes(log[i], version);
  }

  /** What an operation adds to the log, told by the log alone: a request is sent unless a rollback has answered its
      seqno; a rollback answers the outstanding request of its version, and is dropped while the stream is active. */
  ghost function Told(log: seq<Entry>, active: bool, disabled: bool, a: Action): seq<Entry> {
    if disabled then []
    else
      match a
      case Register(version, seqno) => if active || Answered(log, seqno) then [] else [Sent(version, seqno)]
      case Rollback(version) =>
        if forall q :: !Outstanding(log, version, q) then []
        else
          var q :| Outstanding(log, version, q);
          if active then [Dropped(version, q)] else if Answered(log, q) then [] else [Accepted(version, q)]
      case Success => [Reset]
      case _ => []
  }

  /** Was the helper disabled, and what was the stream said to be last? */
  predicate DisabledBy(actions: seq<Action>) { Disable in actions }

  function ActiveAfter(actions: seq<Action>): bool {
    if actions == [] then false
    else
      var last := actions[|actions| - 1];
      if last.StreamState? then last.active else ActiveAfter(actions[..|actions| - 1])
  }

  ghost function LogOf(actions: seq<Action>): seq<Entry> {
    if actions == [] then []
    else
      var front := actions[..|actions| - 1];
      LogOf(front) + Told(LogOf(front), ActiveAfter(front), DisabledBy(front), actions[|actions| - 1])
  }

  lemma RollbackTold(s: State, version: Version)
    requires Inv(s)
    ensures RolledBack(s, version).log == s.log + Told(s.log, s.active, s.disabled, Rollback(version))
  {
    if version in s.sent {
      var seqno := s.sent[version];
      assert Maps(s.sent, version, seqno);
      forall q | Outstanding(s.log, version, q) ensures q == seqno { OutstandingUnique(s.log, version, q, seqno); }
    } else {
      assert forall q :: !Maps(s.sent, version, q);
    }
  }

  lemma StepTold(s: State, a: Action)
    requires Inv(s)
    ensures Step(s, a).log == s.log + Told(s.log, s.active, s.disabled, a)
  {
    if a.Rollback? { RollbackTold(s, a.version); }
  }

  lemma StepFlags(s: State, a: Action)
    ensures Step(s, a).disabled == (s.disabled || a == Disable)
    ensures Step(s, a).active == if a.StreamState? then a.active else s.active
  {
  }

  /** The helper with its two tables does what the log alone says: in every run the requests sent, the
      rollbacks acted upon or dropped and the resets are those of the reference definition. */
  lemma {:induction false} HelperFollowsLog(actions: seq<Action>)
    ensures Run(actions).log == LogOf(actions)
    ensures Run(actions).active == ActiveAfter(actions) && Run(actions).disabled == DisabledBy(actions)
  {
    if actions != [] {
      var front, last := actions[..|actions| - 1], actions[|actions| - 1];
      HelperFollowsLog(front);
      RunKeeps(front);
      StepTold(Run(front), last);
      StepFlags(Run(front), last);
      assert actions == front + [last];
    }
  }

  /** Between two resets a seqno is rolled back at most once, and never requested again after that. */
  lemma {:induction false} RollbackAtMostOnce(actions: seq<Action>, i: int, j: int)
    requires var log := Run(actions).log;
             && 0 <= i < j < |log| && log[i].Accepted? && (log[j].Accepted? || log[j].Sent?)
             && log[i].seqno == log[j].seqno
    ensures ResetBetween(Run(actions).log, i, j)
  {
    RunKeeps(actions);
    var log := Run(actions).log;
    var before := log[..j];
    assert !Answered(before, log[j].seqno);
    assert Answers(before[i], log[j].seqno);
    var k :| i < k < j && before[k].Reset?;
    assert log[k].Reset?;
  }

  /** A rollback acted upon belongs to a request that was sent, under the same version and for the same
      seqno, with neither a reset nor a reuse of the version in between. */
  lemma {:induction false} RollbackAnswersARequest(actions: seq<Action>, j: int)
    requires 0 <= j < |Run(actions).log| && Run(actions).log[j].Accepted?
    ensures var log := Run(actions).log;
            exists i :: 0 <= i < j && log[i] == Sent(log[j].version, log[j].seqno) &&
                        forall k :: i < k < j ==> !Supersedes(log[k], log[j].version)
  {
    RunKeeps(actions);
    var log := Run(actions).log;
    var before := log[..j];
    var i :| 0 <= i < |before| && before[i] == Sent(log[j].version, log[j].seqno) &&
             forall k :: i < k < |before| ==> !Supersedes(before[k], log[j].version);
    assert log[i] == Sent(log[j].version, log[j].seqno);
    assert forall k :: i < k < j ==> before[k] == log[k];
  }

  /** The request at this place of the log is the last one sent under its version since the last reset. */
  ghost predicate Current(log: seq<Entry>, of: int) {
    0 <= of < |log| && log[of].Sent? && forall j :: of < j < |log| ==> !Supersedes(log[j], log[of].version)
  }

  /** Which request an answer is taken for. A rollback that answers the request at place `of` of the log carries its
      version only; if it is acted upon, it is credited to this request exactly when neither a reset nor a reuse of the
      version came after it, and to a later one otherwise. */
  lemma {:induction false} AnswerCreditedTo(actions: seq<Action>, of: nat) returns (i: nat)
    requires of < |Run(actions).log| && Run(actions).log[of].Sent? && !Run(actions).disabled
    requires !Respond(Run(actions), Run(actions).log[of].version).ignore
    ensures var s := Run(actions); var version := s.log[of].version;
            && Current(s.log, i) && s.log[i].version == version && of <= i
            && Step(s, Rollback(version)).log == s.log + [Accepted(version, s.log[i].seqno)]
            && (i == of <==> Current(s.log, of))
  {
    RunKeeps(actions);
    var s := Run(actions);
    var version := s.log[of].version;
    var seqno := s.sent[version];
    assert Maps(s.sent, version, seqno);
    i :| 0 <= i < |s.log| && s.log[i] == Sent(version, seqno) &&
         forall j :: i < j < |s.log| ==> !Supersedes(s.log[j], version);
    assert of > i ==> Supersedes(s.log[of], version);
    assert of < i ==> Supersedes(s.log[i], version);
  }

  /** Versions start over after a reset, so a late answer can be taken for a request of the next round. */
  lemma LateAnswerMisleads()
    ensures var actions := [Register(1, 100), Success, Register(1, 50)];
            && Run(actions).log == [Sent(1, 100), Reset, Sent(1, 50)]
            && Step(Run(actions), Rollback(1)).log == Run(actions).log + [Accepted(1, 50)]
  {
    var actions := [Register(1, 100), Success, Register(1, 50)];
    assert actions[..2] == [Register(1, 100), Success] && actions[..2][..1] == [Register(1, 100)];
    assert [Register(1, 100)][..0] == [];
    assert Run([Register(1, 100)]) == State(map[1 := 100], {}, false, false, [Sent(1, 100)]);
    assert Run(actions[..2]) == State(map[], {}, false, false, [Sent(1, 100), Reset]);
  }

  /** A rollback is acted upon exactly when the helper is disabled, or the stream is not active and the last
      request under this version is for a seqno that no rollback has answered since the last reset. */
  lemma {:induction false} ActedUponIff(actions: seq<Action>, version: Version)
    ensures var s := Run(actions);
            !Respond(s, version).ignore <==>
            s.disabled || (!s.active && exists seqno :: Outstanding(s.log, version, seqno) && !Answered(s.log, seqno))
  {
    RunKeeps(actions);
    var s := Run(actions);
    if version in s.sent {
      assert Maps(s.sent, version, s.sent[version]);
      assert forall q :: Outstanding(s.log, version, q) ==> Maps(s.sent, version, q);
    } else {
      assert forall q :: !Maps(s.sent, version, q);
    }
  }

  /** While the helper is enabled, what is acted upon is what the log records, and an error is reported exactly
      for a version that was never sent or whose request was already from seqno 0. */
  lemma {:induction false} EnabledOutcome(actions: seq<Action>, version: Version)
    requires !Run(actions).disabled
    ensures var s := Run(actions); var t := Step(s, Rollback(version));
            && (Respond(s, version).ignore <==> !(t.log != s.log && t.log[|s.log|].Accepted?))
            && (Respond(s, version).error <==>
                !s.active && ((forall q :: !Outstanding(s.log, version, q)) || Outstanding(s.log, version, 0)))
  {
    RunKeeps(actions);
    var s := Run(actions);
    assert forall q :: Maps(s.sent, version, q) <==> Outstanding(s.log, version, q);
    if version in s.sent { assert Maps(s.sent, version, s.sent[version]); }
  }

  /** A request goes out exactly when the stream is not active and no rollback has answered its seqno since the last
      reset. */
  lemma {:induction false} SentIff(actions: seq<Action>, version: Version, seqno: Seqno)
    ensures var s := Run(actions); var t := Step(s, Register(version, seqno));
            (t.log == s.log + [Sent(version, seqno)]) <==> !s.disabled && !s.active && !Answered(s.log, seqno)
  {
    RunKeeps(actions);
  }

  lemma RunUnfolds(all: seq<Action>, front: seq<Action>, last: Action)
    requires all == front + [last]
    ensures Run(all) == Step(Run(front), last)
  {
    assert all[..|all| - 1] == front && all[|all| - 1] == last;
  }

  lemma {:induction false} DisabledStays(actions: seq<Action>, more: seq<Action>)
    requires Run(actions).disabled
    ensures var s, r := Run(actions), Run(actions + more);
            r.disabled && r.log == s.log && r.sent == s.sent && r.acked == s.acked
    decreases |more|
  {
    if more == [] {
      assert actions + more == actions;
    } else {
      var front := more[..|more| - 1];
      assert actions + more == (actions + front) + [more[|more| - 1]];
      RunUnfolds(actions + more, actions + front, more[|more| - 1]);
      DisabledStays(actions, front);
    }
  }

  /** Once disabled, a helper answers every rollback with an error and "do not ignore", whatever it did before and
      whatever comes: also one to an active stream, which it ignored until then. It records nothing any more. */
  lemma {:induction false} DisabledNeverIgnores(actions: seq<Action>, more: seq<Action>, version: Version)
    ensures var s, r := Run(actions), Run(actions + [Disable] + more);
            && Respond(r, version) == Outcome(false, true)
            && r.log == s.log && r.sent == s.sent && r.acked == s.acked
            && (s.active && !s.disabled ==> Respond(s, version) == Outcome(true, false))
  {
    RunUnfolds(actions + [Disable], actions, Disable);
    DisabledStays(actions + [Disable], more);
  }

  // -------------------------------------------------------------------------
  // Version numbers

  /** The counter is added to atomically; a draw that overflows stores zero in a second atomic step. */
  datatype Well = Well(value: nat, stores: nat)

  function Add(w: Well): (Well, Version) {
    var n := w.value + 1;
    if n > MaxVersion then (Well(n, w.stores + 1), 0) else (Well(n, w.stores), n)
  }

  function Store(w: Well): Well
    requires w.stores > 0
  {
    Well(0, w.stores - 1)
  }

  /** A draw that nobody interrupts. */
  function Draw(w: Well): (Well, Version) {
    var (added, version) := Add(w);
    (if added.value > MaxVersion then Store(added) else added, version)
  }

  /** The well after a number of draws one after the other. */
  function After(w: Well, draws: nat): Well {
    if draws == 0 then w else Draw(After(w, draws - 1)).0
  }

  lemma {:induction false} DrawsCount(w: Well, draws: nat)
    requires w.stores == 0 && w.value <= MaxVersion
    ensures After(w, draws) == Well((w.value + draws) % 65536, 0)
  {
    if draws > 0 {
      DrawsCount(w, draws - 1);
      var before := w.value + draws - 1;
      assert (before + 1) % 65536 == (if before % 65536 == 65535 then 0 else before % 65536 + 1);
    }
  }

  /** The draw number i, counted from zero, hands out the next number modulo 65536. */
  lemma {:induction false} VersionAt(w: Well, i: nat)
    requires w.stores == 0 && w.value <= MaxVersion
    ensures Draw(After(w, i)).1 == (w.value + i + 1) % 65536
  {
    DrawsCount(w, i);
    DrawsCount(w, i + 1);
    assert Draw(After(w, i)).0 == After(w, i + 1);
    DrawGivesValue(After(w, i));
  }

  lemma DrawGivesValue(w: Well)
    requires w.stores == 0
    ensures Draw(w).1 == Draw(w).0.value
  {
  }

  /** Draws one after the other without a reset: two give the same version exactly when a multiple of 65536 lies
      between them. */
  lemma SerialVersionsRepeatIff(w: Well, i: nat, j: nat)
    requires w.stores == 0 && w.value <= MaxVersion && i <= j
    ensures Draw(After(w, i)).1 == Draw(After(w, j)).1 <==> (j - i) % 65536 == 0
  {
    VersionAt(w, i);
    VersionAt(w, j);
    SameVersionIff(Draw(After(w, i)).1, Draw(After(w, j)).1, w.value, i, j);
  }

  lemma SameVersionIff(x: nat, y: nat, value: nat, i: nat, j: nat)
    requires x == (value + i + 1) % 65536 && y == (value + j + 1) % 65536 && i <= j
    ensures x == y <==> (j - i) % 65536 == 0
  {
    SameRemainder(x, y, value + i + 1, value + j + 1);
    assert (value + j + 1) - (value + i + 1) == j - i;
  }

  lemma SameRemainder(x: nat, y: nat, a: nat, b: nat)
    requires x == a % 65536 && y == b % 65536 && a <= b
    ensures x == y <==> (b - a) % 65536 == 0
  {
  }

  // -------------------------------------------------------------------------
  // Interleaved draws

  /** The atomic operations on the counter: the add and the store of a draw, and the store of a reset. */
  datatype WellAction = DrawAdd | DrawStore | DrawReset

  function WellStep(w: Well, a: WellAction): Well {
    match a
    case DrawAdd => Add(w).0
    case DrawStore => if w.stores > 0 then Store(w) else w
    case DrawReset => w.(value := 0)
  }

  function WellRun(actions: seq<WellAction>): Well {
    if actions == [] then Well(0, 0) else WellStep(WellRun(actions[..|actions| - 1]), actions[|actions| - 1])
  }

  function At(actions: seq<WellAction>, p: nat): Well
    requires p <= |actions|
  {
    WellRun(actions[..p])
  }

  /** The version that the draw at this place hands out. */
  function Handed(actions: seq<WellAction>, p: nat): Version
    requires p < |actions|
  {
    Add(At(actions, p)).1
  }

  /** How many draws there are from one place to another. */
  function Draws(actions: seq<WellAction>, p: nat, q: nat): nat
    requires p <= q <= |actions|
    decreases q
  {
    if p == q then 0 else Draws(actions, p, q - 1) + (if actions[q - 1] == DrawAdd then 1 else 0)
  }

  lemma AtNext(actions: seq<WellAction>, p: nat)
    requires p < |actions|
    ensures At(actions, p + 1) == WellStep(At(actions, p), actions[p])
  {
    assert actions[..p + 1][..p] == actions[..p];
  }

  /** A counter above the limit has a store coming. */
  lemma {:induction false} OverflowIsPending(actions: seq<WellAction>)
    ensures WellRun(actions).value > MaxVersion ==> WellRun(actions).stores > 0
  {
    if actions != [] { OverflowIsPending(actions[..|actions| - 1]); }
  }

  ghost predicate NoReset(actions: seq<WellAction>, p: nat, q: nat)
    requires q <= |actions|
  {
    forall r :: p < r < q ==> actions[r] != DrawReset
  }

  /** A store takes effect between two places. */
  ghost predicate StoreBetween(actions: seq<WellAction>, p: nat, q: nat)
    requires q <= |actions|
  {
    exists r :: p < r < q && actions[r] == DrawStore && At(actions, r).stores > 0
  }

  lemma StoreBetweenNext(actions: seq<WellAction>, p: nat, q: nat)
    requires p < q < |actions|
    ensures StoreBetween(actions, p, q + 1) <==>
            StoreBetween(actions, p, q) || (actions[q] == DrawStore && At(actions, q).stores > 0)
  {
  }

  /** What the counter shows: the draws since the first, or less than that after a store. */
  predicate Counts(x: nat, draws: nat, stored: bool, value: nat) {
    if stored then value < draws else value == x + draws
  }

  lemma CountsStep(x: nat, draws: nat, stored: bool, w: Well, a: WellAction)
    requires Counts(x, draws, stored, w.value) && draws > 0 && a != DrawReset
    ensures Counts(x, draws + (if a == DrawAdd then 1 else 0),
                   stored || (a == DrawStore && w.stores > 0), WellStep(w, a).value)
  {
  }

  lemma FirstDrawCounts(actions: seq<WellAction>, p: nat)
    requires p < |actions| && actions[p] == DrawAdd
    ensures Counts(At(actions, p).value, Draws(actions, p, p + 1), StoreBetween(actions, p, p + 1),
                   At(actions, p + 1).value)
  {
    AtNext(actions, p);
    assert Draws(actions, p, p) == 0;
  }

  /** Without a store the counter counts the draws; after one it is less than the draws since. */
  lemma {:induction false} CounterBetween(actions: seq<WellAction>, p: nat, q: nat)
    requires p < q <= |actions| && actions[p] == DrawAdd && NoReset(actions, p, q)
    ensures Counts(At(actions, p).value, Draws(actions, p, q), StoreBetween(actions, p, q), At(actions, q).value)
    decreases q
  {
    AtNext(actions, q - 1);
    if q == p + 1 {
      FirstDrawCounts(actions, p);
    } else {
      CounterBetween(actions, p, q - 1);
      StoreBetweenNext(actions, p, q - 1);
      DrawsPositive(actions, p, q - 1);
      CountsStep(At(actions, p).value, Draws(actions, p, q - 1), StoreBetween(actions, p, q - 1),
                 At(actions, q - 1), actions[q - 1]);
    }
  }

  lemma {:induction false} DrawsPositive(actions: seq<WellAction>, p: nat, q: nat)
    requires p < q <= |actions| && actions[p] == DrawAdd
    ensures Draws(actions, p, q) >= 1
    decreases q
  {
    if q == p + 1 { assert Draws(actions, p, p) == 0; } else { DrawsPositive(actions, p, q - 1); }
  }

  /** How many draws there are before a place since the last store or reset that took effect, or since the start. */
  function DrawsSince(actions: seq<WellAction>, p: nat): nat
    requires p <= |actions|
    decreases p
  {
    if p == 0 || actions[p - 1] == DrawReset then 0
    else if actions[p - 1] == DrawStore && At(actions, p - 1).stores > 0 then 0
    else DrawsSince(actions, p - 1) + (if actions[p - 1] == DrawAdd then 1 else 0)
  }

  lemma {:induction false} CounterIsDraws(actions: seq<WellAction>, p: nat)
    requires p <= |actions|
    ensures At(actions, p).value == DrawsSince(actions, p)
    decreases p
  {
    if p > 0 {
      CounterIsDraws(actions, p - 1);
      AtNext(actions, p - 1);
    }
  }

  /** Exactly when two draws of an interleaved run, fewer than 65536 apart and with no reset in between, hand out the
      same version. Without a store between them: if at least 65535 draws came before the first since the last store or
      reset, so that both find the counter at its limit. With a store between them: if equally many draws came before
      each since the last store or reset. */
  lemma VersionsCoincideIff(actions: seq<WellAction>, p: nat, q: nat)
    requires p < q < |actions| && actions[p] == DrawAdd == actions[q]
    requires NoReset(actions, p, q) && Draws(actions, p, q) <= MaxVersion
    ensures Handed(actions, p) == Handed(actions, q) <==>
            if StoreBetween(actions, p, q) then DrawsSince(actions, p) == DrawsSince(actions, q)
            else DrawsSince(actions, p) >= MaxVersion
  {
    CounterIsDraws(actions, p);
    CounterIsDraws(actions, q);
    CounterBetween(actions, p, q);
    DrawsPositive(actions, p, q);
  }

  /** While draws exclude each other, the counter and a store that is coming show the draws modulo 65536. */
  predicate Serial(x: nat, draws: nat, w: Well) {
    || (w.stores == 0 && w.value == (x + draws) % 65536)
    || (w.stores == 1 && w.value == 65536 && (x + draws) % 65536 == 0)
  }

  ghost predicate DrawsExclude(actions: seq<WellAction>, p: nat, q: nat)
    requires q < |actions|
  {
    forall r :: p <= r <= q && actions[r] == DrawAdd ==> At(actions, r).stores == 0
  }

  lemma SerialStep(x: nat, draws: nat, w: Well, a: WellAction)
    requires Serial(x, draws, w) && a != DrawReset && (a == DrawAdd ==> w.stores == 0)
    ensures Serial(x, draws + (if a == DrawAdd then 1 else 0), WellStep(w, a))
  {
    if a == DrawAdd { NextRemainder(x + draws); }
  }

  lemma NextRemainder(n: nat)
    ensures (n + 1) % 65536 == if n % 65536 == 65535 then 0 else n % 65536 + 1
  {
  }

  lemma {:induction false} SerialBetween(actions: seq<WellAction>, p: nat, q: nat, t: nat)
    requires p < t <= q < |actions| && actions[p] == DrawAdd && NoReset(actions, p, q) && DrawsExclude(actions, p, q)
    ensures Serial(At(actions, p).value, Draws(actions, p, t), At(actions, t))
    decreases t
  {
    var x := At(actions, p).value;
    AtNext(actions, t - 1);
    if t == p + 1 {
      OverflowIsPending(actions[..p]);
      assert Draws(actions, p, p) == 0;
      SerialStep(x, 0, At(actions, p), DrawAdd);
    } else {
      SerialBetween(actions, p, q, t - 1);
      SerialStep(x, Draws(actions, p, t - 1), At(actions, t - 1), actions[t - 1]);
    }
  }

  /** Draws that exclude each other get different versions, up to 65536 of them in a row. */
  lemma ExclusiveDrawsDiffer(actions: seq<WellAction>, p: nat, q: nat)
    requires p < q < |actions| && actions[p] == DrawAdd == actions[q]
    requires NoReset(actions, p, q) && Draws(actions, p, q) <= MaxVersion && DrawsExclude(actions, p, q)
    ensures Handed(actions, p) != Handed(actions, q)
  {
    var x, n := At(actions, p).value, Draws(actions, p, q);
    OverflowIsPending(actions[..p]);
    SerialBetween(actions, p, q, q);
    DrawsPositive(actions, p, q);
    NextRemainder(x);
    NextRemainder(x + n);
    RemaindersDiffer(x, n);
  }

  lemma RemaindersDiffer(x: nat, n: nat)
    requires 0 < n < 65536
    ensures (x + 1) % 65536 != (x + n + 1) % 65536
  {
    SameRemainder((x + 1) % 65536, (x + n + 1) % 65536, x + 1, x + n + 1);
  }

  /** The cause: two such draws get the same version only if a draw, from the first to the second, falls between the add
      and the store of another one. */
  lemma RepeatNeedsOverlap(actions: seq<WellAction>, p: nat, q: nat)
    requires p < q < |actions| && actions[p] == DrawAdd == actions[q]
    requires NoReset(actions, p, q) && Draws(actions, p, q) <= MaxVersion
    requires Handed(actions, p) == Handed(actions, q)
    ensures exists r :: p <= r <= q && actions[r] == DrawAdd && At(actions, r).stores > 0
  {
    if DrawsExclude(actions, p, q) { ExclusiveDrawsDiffer(actions, p, q); }
  }

  function Full(): seq<WellAction> { seq(MaxVersion, _ => DrawAdd) }

  lemma {:induction false} FullRun(n: nat)
    requires n <= MaxVersion
    ensures WellRun(seq(n, _ => DrawAdd)) == Well(n, 0)
  {
    var s := seq(n, _ => DrawAdd);
    if n > 0 {
      FullRun(n - 1);
      assert s[..n - 1] == seq(n - 1, _ => DrawAdd);
    }
  }

  lemma WellRunExtends(actions: seq<WellAction>, a: WellAction)
    ensures WellRun(actions + [a]) == WellStep(WellRun(actions), a)
  {
    assert (actions + [a])[..|actions|] == actions;
  }

  /** After 65535 draws, two that overlap both get 0; and if their stores come late, version 1 is handed out twice. */
  lemma OverlappingDrawsRepeat()
    ensures Add(WellRun(Full())).1 == 0 && Add(WellRun(Full() + [DrawAdd])).1 == 0
    ensures var late := Full() + [DrawAdd] + [DrawAdd] + [DrawStore];
            Add(WellRun(late)).1 == 1 && Add(WellRun(late + [DrawAdd] + [DrawStore])).1 == 1
  {
    FullRun(MaxVersion);
    WellRunExtends(Full(), DrawAdd);
    WellRunExtends(Full() + [DrawAdd], DrawAdd);
    WellRunExtends(Full() + [DrawAdd] + [DrawAdd], DrawStore);
    var late := Full() + [DrawAdd] + [DrawAdd] + [DrawStore];
    WellRunExtends(late, DrawAdd);
    WellRunExtends(late + [DrawAdd], DrawStore);
  }

  // -------------------------------------------------------------------------
  // The helper

  class DcpStreamReqHelper {
    var sentMsgs: map<Version, Seqno>
    var ackedMsgs: map<Seqno, bool>
    var isDisabled: bool
    var currentVersionWell: nat
    var streamActive: bool
    ghost var log: seq<Entry>
    ghost var pendingStores: nat

    ghost function WellView(): Well
      reads this
    {
      Well(currentVersionWell, pendingStores)
    }

    ghost function View(): State
      reads this
    {
      State(sentMsgs, (set q | q in ackedMsgs && ackedMsgs[q]), isDisabled, streamActive, log)
    }

    constructor ()
      ensures View() == Initial && WellView() == Well(0, 0)
    {
      sentMsgs, ackedMsgs, isDisabled, currentVersionWell, streamActive := map[], map[], false, 0, false;
      log, pendingStores := [], 0;
    }

    /** The atomic add of a draw; `overflow` tells that a store has to follow. */
    method AddVersion() returns (version: Version, overflow: bool)
      modifies this`currentVersionWell, this`pendingStores
      ensures WellView() == WellStep(old(WellView()), DrawAdd)
      ensures version == Add(old(WellView())).1
      ensures overflow <==> currentVersionWell > MaxVersion
    {
      currentVersionWell := currentVersionWell + 1;
      overflow := currentVersionWell > MaxVersion;
      version := if overflow then 0 else currentVersionWell;
      if overflow { pendingStores := pendingStores + 1; }
    }

    /** The store that an overflowing draw ends with. */
    method StoreZero()
      requires pendingStores > 0
      modifies this`currentVersionWell, this`pendingStores
      ensures WellView() == WellStep(old(WellView()), DrawStore)
    {
      currentVersionWell := 0;
      pendingStores := pendingStores - 1;
    }

    /** A draw that nobody interrupts. */
    method GetNewVersion() returns (version: Version)
      modifies this`currentVersionWell, this`pendingStores
      ensures (WellView(), version) == Draw(old(WellView()))
    {
      var overflow;
      version, overflow := AddVersion();
      if overflow {
        StoreZero();
      }
    }

    method RegisterRequest(version: Version, seqno: Seqno) returns (alreadyAcked: bool, failed: bool)
      modifies this`sentMsgs, this`log
      ensures View() == Step(old(View()), Register(version, seqno))
      ensures failed == isDisabled
      ensures !failed ==> (alreadyAcked <==> AlreadyAcked(old(View()), seqno))
    {
      if isDisabled {
        return false, true;
      }
      failed := false;
      if streamActive {
        alreadyAcked := true;
      } else {
        alreadyAcked := seqno in ackedMsgs && ackedMsgs[seqno];
      }
      if !alreadyAcked {
        sentMsgs := sentMsgs[version := seqno];
        log := log + [Sent(version, seqno)];
      }
    }

    method DeregisterRequest(version: Version)
      modifies this`ackedMsgs
      ensures View().acked == old(View().acked) + (if version in sentMsgs then {sentMsgs[version]} else {})
    {
      if version in sentMsgs {
        ackedMsgs := ackedMsgs[sentMsgs[version] := true];
      }
    }

    method ProcessRollbackResponse(version: Version) returns (ignoreResponse: bool, failed: bool)
      modifies this`ackedMsgs, this`log
      ensures View() == Step(old(View()), Rollback(version))
      ensures Outcome(ignoreResponse, failed) == Respond(old(View()), version)
    {
      if isDisabled {
        return false, true;
      }
      ignoreResponse, failed := false, false;
      var acked := false;
      if streamActive {
        ignoreResponse := true;
      } else {
        if version !in sentMsgs {
          return true, true;
        }
        var seqno := sentMsgs[version];
        acked := seqno in ackedMsgs && ackedMsgs[seqno];
        if acked {
          ignoreResponse := true;
        }
        if sentMsgs[version] == 0 {
          failed := true;
        }
      }
      if !acked {
        if version in sentMsgs {
          var seqno := sentMsgs[version];
          log := log + [if streamActive then Dropped(version, seqno) else Accepted(version, seqno)];
        }
        DeregisterRequest(version);
      }
    }

    method ProcessSuccessResponse()
      modifies this`sentMsgs, this`ackedMsgs, this`currentVersionWell, this`log
      ensures View() == Step(old(View()), Success)
      ensures WellView() == if isDisabled then old(WellView()) else WellStep(old(WellView()), DrawReset)
    {
      if isDisabled {
        return;
      }
      sentMsgs, ackedMsgs, currentVersionWell := map[], map[], 0;
      log := log + [Reset];
    }

    method DisableHelper()
      modifies this`isDisabled
      ensures View() == Step(old(View()), Disable)
    {
      isDisabled := true;
    }

    /** Counts the versions whose seqno has not been answered. */
    method GetNumberOfOutstandingReqs() returns (count: nat)
      ensures count == |set v | v in sentMsgs && sentMsgs[v] !in View().acked|
    {
      count := 0;
      var todo := sentMsgs.Keys;
      ghost var counted: set<Version> := {};
      while todo != {}
        invariant todo <= sentMsgs.Keys
        invariant counted == set v | v in sentMsgs.Keys - todo && sentMsgs[v] !in View().acked
        invariant count == |counted|
      {
        var v :| v in todo;
        if !(sentMsgs[v] in ackedMsgs && ackedMsgs[sentMsgs[v]]) {
          count := count + 1;
          counted := counted + {v};
        }
        todo := todo - {v};
      }
      assert counted == set v | v in sentMsgs && sentMsgs[v] !in View().acked;
    }
  }
}
