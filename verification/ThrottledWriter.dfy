/**
 The stack-based writer of the XMEM nozzle: a list of byte strings goes out under
 a bandwidth throttler that may grant all of it, a minimal part, the first item
 or nothing, and the rest is split and retried.
 */
module ThrottledWriter {
  import opened Common
  import opened BandwidthThrottler

  function Flatten(list: seq<Bytes>): Bytes {
    if list == [] then [] else list[0] + Flatten(list[1..])
  }

  function Size(list: seq<Bytes>): nat {
    |Flatten(list)|
  }

  lemma Regrouped(a: Bytes, b: Bytes, c: Bytes)
    ensures (a + b) + c == a + (b + c)
  {
  }

  lemma {:induction false} FlattenConcat(a: seq<Bytes>, b: seq<Bytes>)
    ensures Flatten(a + b) == Flatten(a) + Flatten(b)
  {
    if a == [] {
      assert a + b == b;
    } else {
      FlattenConcat(a[1..], b);
      assert (a + b)[1..] == a[1..] + b && (a + b)[0] == a[0];
      Regrouped(a[0], Flatten(a[1..]), Flatten(b));
    }
  }

  lemma FlattenSplit(list: seq<Bytes>, k: nat)
    requires k <= |list|
    ensures Flatten(list) == Flatten(list[..k]) + Flatten(list[k..])
  {
    assert list == list[..k] + list[k..];
    FlattenConcat(list[..k], list[k..]);
  }

  lemma SizeOfPrefix(list: seq<Bytes>, k: nat)
    requires k < |list|
    ensures Size(list[..k + 1]) == Size(list[..k]) + |list[k]|
  {
    assert list[..k + 1] == list[..k] + [list[k]];
    FlattenConcat(list[..k], [list[k]]);
  }

  // -------------------------------------------------------------------------
  // The stack

  class Stack {
    var items: seq<seq<Bytes>>

    constructor ()
      ensures items == []
    {
      items := [];
    }

    predicate Empty()
      reads this
    {
      items == []
    }

    method Push(i: seq<Bytes>)
      modifies this
      ensures items == old(items) + [i]
    {
      items := items + [i];
    }

    method Pop() returns (d: seq<Bytes>)
      requires !Empty()
      modifies this
      ensures old(items) == items + [d]
    {
      d := items[|items| - 1];
      items := items[..|items| - 1];
    }
  }

  /** What the stack still has to send, from the top down. */
  function Remaining(stack: seq<seq<Bytes>>): Bytes {
    if stack == [] then []
    else Flatten(stack[|stack| - 1]) + Remaining(stack[..|stack| - 1])
  }

  function ItemCount(stack: seq<seq<Bytes>>): nat {
    if stack == [] then 0 else ItemCount(stack[..|stack| - 1]) + |stack[|stack| - 1]|
  }

  lemma RemainingPush(stack: seq<seq<Bytes>>, top: seq<Bytes>)
    ensures Remaining(stack + [top]) == Flatten(top) + Remaining(stack)
    ensures ItemCount(stack + [top]) == ItemCount(stack) + |top|
  {
    assert (stack + [top])[..|stack|] == stack;
  }

  predicate NonEmptyEntries(stack: seq<seq<Bytes>>) {
    forall i :: 0 <= i < |stack| ==> stack[i] != []
  }

  lemma {:induction false} EntriesHaveItems(stack: seq<seq<Bytes>>)
    requires NonEmptyEntries(stack)
    ensures |stack| <= ItemCount(stack)
  {
    if stack != [] { EntriesHaveItems(stack[..|stack| - 1]); }
  }

  // -------------------------------------------------------------------------
  // The two computations

  /** How many items from the front fit into the limit together. */
  function Fitting(list: seq<Bytes>, limit: int): (k: nat)
    ensures k <= |list|
  {
    if list == [] || |list[0]| > limit then 0 else 1 + Fitting(list[1..], limit - |list[0]|)
  }

  lemma SizeFromFirst(list: seq<Bytes>, k: nat)
    requires 0 < k <= |list|
    ensures Size(list[..k]) == |list[0]| + Size(list[1..][..k - 1])
  {
    assert list[..k][1..] == list[1..][..k - 1];
  }

  /** It is the longest prefix within the limit. */
  lemma {:induction false} FittingIsLongest(list: seq<Bytes>, limit: int)
    ensures 0 <= limit || 0 < Fitting(list, limit) ==> Size(list[..Fitting(list, limit)]) <= limit
    ensures Fitting(list, limit) < |list| ==> Size(list[..Fitting(list, limit) + 1]) > limit
  {
    var k := Fitting(list, limit);
    if k == 0 {
      if list != [] { SizeFromFirst(list, 1); }
    } else {
      FittingIsLongest(list[1..], limit - |list[0]|);
      SizeFromFirst(list, k);
      if k < |list| { SizeFromFirst(list, k + 1); }
    }
  }

  lemma {:induction false} SizeGrows(list: seq<Bytes>, a: nat, b: nat)
    requires a <= b <= |list|
    ensures Size(list[..a]) <= Size(list[..b])
  {
    if a < b {
      SizeGrows(list, a, b - 1);
      SizeOfPrefix(list, b - 1);
    }
  }

  /** And the only one. */
  lemma LongestIsFitting(list: seq<Bytes>, limit: int, k: nat)
    requires k <= |list| && (0 < k ==> Size(list[..k]) <= limit)
    requires k < |list| ==> Size(list[..k + 1]) > limit
    ensures k == Fitting(list, limit)
  {
    FittingIsLongest(list, limit);
    var f := Fitting(list, limit);
    if k < f {
      SizeGrows(list, k + 1, f);
    } else if f < k {
      SizeGrows(list, f + 1, k);
    }
  }

  /** What computeNumberOfBytes promises about the minimal part: the longest prefix within the target,
      or the first item if even that is over the target. */
  predicate IsMinimalPart(list: seq<Bytes>, percentage: nat, minIndex: nat)
    requires minIndex < |list|
  {
    var target := Size(list) * percentage / 100;
    if |list| == 1 then minIndex == 0
    else
      || (Size(list[..minIndex + 1]) <= target &&
          (minIndex + 1 < |list| ==> Size(list[..minIndex + 2]) > target))
      || (minIndex == 0 && |list[0]| > target)
  }

  /** The number of items in the minimal part: those within the percentage, but at least the first. */
  function Minimal(list: seq<Bytes>, percentage: nat): (k: nat)
    requires list != []
    ensures 0 < k <= |list|
  {
    var k := Fitting(list, Size(list) * percentage / 100);
    if |list| == 1 || k == 0 then 1 else k
  }

  method ComputeNumberOfBytes(list: seq<Bytes>, percentage: nat)
    returns (numberOfBytes: nat, minNumberOfBytes: nat, minIndex: int, numberOfBytesOfFirstItem: nat)
    requires list != []
    ensures numberOfBytes == Size(list)
    ensures minIndex + 1 == Minimal(list, percentage) && minNumberOfBytes == Size(list[..minIndex + 1])
    ensures numberOfBytesOfFirstItem == Size(list[..1])
    ensures IsMinimalPart(list, percentage, minIndex)
  {
    SizeOfPrefix(list, 0);
    numberOfBytesOfFirstItem := |list[0]|;
    numberOfBytes := 0;
    for i := 0 to |list|
      invariant numberOfBytes == Size(list[..i])
    {
      SizeOfPrefix(list, i);
      numberOfBytes := numberOfBytes + |list[i]|;
    }
    assert list[..|list|] == list;
    if |list| == 1 {
      return numberOfBytes, numberOfBytes, 0, numberOfBytesOfFirstItem;
    }
    var target := numberOfBytes * percentage / 100;
    var cur := 0;
    minIndex := -1;
    for i := 0 to |list|
      invariant minIndex == i - 1 && cur == Size(list[..i]) && (i > 0 ==> cur <= target)
    {
      SizeOfPrefix(list, i);
      if cur + |list[i]| > target { break; }
      cur := cur + |list[i]|;
      minIndex := i;
    }
    LongestIsFitting(list, target, minIndex + 1);
    if minIndex >= 0 {
      minNumberOfBytes := cur;
    } else {
      minNumberOfBytes, minIndex := |list[0]|, 0;
    }
  }

  /** How many items fit into the throttler's allowance. */
  function Allowed(list: seq<Bytes>, bytesAllowed: int): (k: nat)
    ensures k <= |list|
  {
    if bytesAllowed <= 0 then 0 else Fitting(list, bytesAllowed)
  }

  /** The longest prefix that fits the allowance; -1 if not even one item does. */
  method ComputeSplitIndex(list: seq<Bytes>, bytesAllowed: int) returns (splitIndex: int)
    requires list != []
    ensures splitIndex + 1 == Allowed(list, bytesAllowed)
    ensures splitIndex >= 0 ==> 0 < bytesAllowed && Size(list[..splitIndex + 1]) <= bytesAllowed
    ensures 0 < bytesAllowed && splitIndex + 1 < |list| ==> Size(list[..splitIndex + 2]) > bytesAllowed
  {
    if bytesAllowed <= 0 { return -1; }
    splitIndex := -1;
    var splitBytes := 0;
    for i := 0 to |list|
      invariant splitIndex == i - 1 && splitBytes == Size(list[..i]) <= bytesAllowed
    {
      SizeOfPrefix(list, i);
      splitBytes := splitBytes + |list[i]|;
      if splitBytes > bytesAllowed { break; }
      splitIndex := i;
    }
    LongestIsFitting(list, bytesAllowed, splitIndex + 1);
  }

  // -------------------------------------------------------------------------
  // One round

  /** What one round of the loop meets: the state of the nozzle, the throttler's answer,
      and how much of a write reaches the connection if it fails. */
  datatype Round = Round(running: bool, canSend: int, allowed: int, writeFails: bool, partial: nat)

  /** How many items a grant lets out: all, the minimal part, the first, or none. */
  function Cut(cur: seq<Bytes>, percentage: nat, canSend: int): (k: nat)
    requires cur != []
    ensures k <= |cur|
  {
    if canSend == Size(cur) then |cur|
    else if canSend == Size(cur[..Minimal(cur, percentage)]) then Minimal(cur, percentage)
    else if canSend == Size(cur[..1]) then 1
    else 0
  }

  /** What is left of an entry goes back, the part that fits the allowance on top. */
  function PushedBack(stack: seq<seq<Bytes>>, rest: seq<Bytes>, allowed: int): seq<seq<Bytes>> {
    var k := Allowed(rest, allowed);
    if rest == [] then stack
    else if 0 < k < |rest| then stack + [rest[k..]] + [rest[..k]]
    else stack + [rest]
  }

  function Top(stack: seq<seq<Bytes>>): seq<Bytes>
    requires stack != []
  {
    stack[|stack| - 1]
  }

  function Below(stack: seq<seq<Bytes>>): seq<seq<Bytes>>
    requires stack != []
  {
    stack[..|stack| - 1]
  }

  predicate Ready(stack: seq<seq<Bytes>>) { stack != [] && NonEmptyEntries(stack) }

  function CutOf(stack: seq<seq<Bytes>>, percentage: nat, round: Round): (k: nat)
    requires Ready(stack)
    ensures k <= |Top(stack)|
  {
    Cut(Top(stack), percentage, round.canSend)
  }

  /** The bytes a round writes and the stack it leaves, unless the write fails. */
  function Sends(stack: seq<seq<Bytes>>, percentage: nat, round: Round): Bytes
    requires Ready(stack)
  {
    Flatten(Top(stack)[..CutOf(stack, percentage, round)])
  }

  function Leaves(stack: seq<seq<Bytes>>, percentage: nat, round: Round): seq<seq<Bytes>>
    requires Ready(stack)
  {
    PushedBack(Below(stack), Top(stack)[CutOf(stack, percentage, round)..], round.allowed)
  }

  predicate Fails(stack: seq<seq<Bytes>>, percentage: nat, round: Round)
    requires Ready(stack)
  {
    round.writeFails && CutOf(stack, percentage, round) > 0
  }

  /** The round waits: it writes nothing and leaves the stack as it was. */
  predicate Idles(stack: seq<seq<Bytes>>, percentage: nat, round: Round)
    requires Ready(stack)
  {
    Leaves(stack, percentage, round) == stack
  }

  function Partly(piece: Bytes, n: nat): Bytes { piece[..if n <= |piece| then n else |piece|] }

  function Granted(round: Round): nat { if round.canSend > 0 then round.canSend else 0 }

  /** A grant is used exactly: its size is what goes out, and a number that is none of the three lets nothing out. */
  lemma GrantIsSent(stack: seq<seq<Bytes>>, percentage: nat, round: Round)
    requires Ready(stack)
    ensures var cur := Top(stack);
            var offers := {Size(cur), Size(cur[..Minimal(cur, percentage)]), Size(cur[..1])};
            && (round.canSend in offers ==> |Sends(stack, percentage, round)| == round.canSend)
            && (round.canSend !in offers <==> CutOf(stack, percentage, round) == 0)
  {
    var cur := Top(stack);
    assert cur[..|cur|] == cur;
  }

  lemma PushTwo(stack: seq<seq<Bytes>>, cur: seq<Bytes>, k: nat)
    requires 0 < k < |cur| && NonEmptyEntries(stack)
    ensures var two := stack + [cur[k..]] + [cur[..k]];
            && Remaining(two) == Flatten(cur) + Remaining(stack)
            && ItemCount(two) == ItemCount(stack) + |cur|
            && NonEmptyEntries(two)
  {
    RemainingPush(stack, cur[k..]);
    RemainingPush(stack + [cur[k..]], cur[..k]);
    FlattenSplit(cur, k);
    Regrouped(Flatten(cur[..k]), Flatten(cur[k..]), Remaining(stack));
  }

  /** Splitting and pushing back keeps the bytes to send, their order and the number of items. */
  lemma PushedBackKeeps(stack: seq<seq<Bytes>>, rest: seq<Bytes>, allowed: int)
    requires NonEmptyEntries(stack)
    ensures var after := PushedBack(stack, rest, allowed);
            && Remaining(after) == Flatten(rest) + Remaining(stack)
            && ItemCount(after) == ItemCount(stack) + |rest|
            && |stack| <= |after| && NonEmptyEntries(after)
            && (rest != [] ==> |stack| < |after|)
            && (after == stack + [rest] || rest == [] || |after| == |stack| + 2)
  {
    var k := Allowed(rest, allowed);
    if rest == [] {
      assert [] + Remaining(stack) == Remaining(stack);
    } else if 0 < k < |rest| {
      PushTwo(stack, rest, k);
    } else {
      RemainingPush(stack, rest);
    }
  }

  /** Where the rest of an entry is split: what goes on top is its longest prefix within the allowance, and it is split
      exactly when that is neither empty nor everything. */
  lemma SplitsAtLongest(stack: seq<seq<Bytes>>, rest: seq<Bytes>, allowed: int)
    requires rest != []
    ensures var after := PushedBack(stack, rest, allowed); var top := Top(after);
            && (|after| == |stack| + 2 <==> 0 < allowed && |rest[0]| <= allowed < Size(rest))
            && (|after| == |stack| + 2 ==>
                  && top == rest[..|top|] && after[|stack|] == rest[|top|..] && 0 < |top| < |rest|
                  && Size(top) <= allowed < Size(rest[..|top| + 1]))
            && (|after| != |stack| + 2 ==> after == stack + [rest])
            && after[..|stack|] == stack
  {
    var k := Allowed(rest, allowed);
    FittingIsLongest(rest, allowed);
    SizeFromFirst(rest, 1);
    assert rest[..|rest|] == rest && Size(rest[..1]) == |rest[0]|;
    if 0 < k { SizeGrows(rest, 1, k); }
    if 0 < k < |rest| { SizeGrows(rest, k + 1, |rest|); }
  }

  /** What a stack can take: no more rounds than this change it. */
  function Measure(stack: seq<seq<Bytes>>): int { 2 * ItemCount(stack) - |stack| }

  lemma MeasureIsEnough(stack: seq<seq<Bytes>>)
    requires NonEmptyEntries(stack)
    ensures Measure(stack) >= |stack|
  {
    EntriesHaveItems(stack);
  }

  lemma TopAndBelow(stack: seq<seq<Bytes>>)
    requires Ready(stack)
    ensures stack == Below(stack) + [Top(stack)] && NonEmptyEntries(Below(stack)) && Top(stack) != []
    ensures Remaining(stack) == Flatten(Top(stack)) + Remaining(Below(stack))
    ensures ItemCount(stack) == ItemCount(Below(stack)) + |Top(stack)|
  {
  }

  /** A round conserves what was sent and what remains, and uses up one unit of the measure unless it idles. */
  lemma RoundConserves(stack: seq<seq<Bytes>>, percentage: nat, round: Round)
    requires Ready(stack)
    ensures var after := Leaves(stack, percentage, round);
            && NonEmptyEntries(after)
            && Sends(stack, percentage, round) + Remaining(after) == Remaining(stack)
  {
    var cur, k := Top(stack), CutOf(stack, percentage, round);
    TopAndBelow(stack);
    PushedBackKeeps(Below(stack), cur[k..], round.allowed);
    FlattenSplit(cur, k);
    Regrouped(Flatten(cur[..k]), Flatten(cur[k..]), Remaining(Below(stack)));
  }

  lemma RoundUses(stack: seq<seq<Bytes>>, percentage: nat, round: Round)
    requires Ready(stack)
    ensures Measure(Leaves(stack, percentage, round)) + (if Idles(stack, percentage, round) then 0 else 1) <=
            Measure(stack)
    ensures Idles(stack, percentage, round) ==> CutOf(stack, percentage, round) == 0
  {
    var cur, k := Top(stack), CutOf(stack, percentage, round);
    TopAndBelow(stack);
    PushedBackKeeps(Below(stack), cur[k..], round.allowed);
    if k == 0 { assert cur[k..] == cur; }
  }

  /** Exactly when a round waits: the grant is none of the three sizes, and the allowance covers no item or all. */
  lemma IdlesIff(stack: seq<seq<Bytes>>, percentage: nat, round: Round)
    requires Ready(stack)
    ensures Idles(stack, percentage, round) <==>
            && CutOf(stack, percentage, round) == 0
            && (Allowed(Top(stack), round.allowed) == 0 || Allowed(Top(stack), round.allowed) == |Top(stack)|)
  {
    TopAndBelow(stack);
    RoundUses(stack, percentage, round);
    var cur := Top(stack);
    if CutOf(stack, percentage, round) == 0 {
      assert cur[0..] == cur;
      PushedBackKeeps(Below(stack), cur, round.allowed);
    }
  }

  // -------------------------------------------------------------------------
  // The loop

  datatype Exit = Finished | Stopped | WriteFailed | StillRunning

  datatype Outcome = Outcome(written: Bytes, exit: Exit, used: nat)

  /** The loop of writeToClient from a stack and what was written before, against the rounds to come. */
  function Loop(stack: seq<seq<Bytes>>, written: Bytes, percentage: nat, rounds: seq<Round>): Outcome
    requires NonEmptyEntries(stack)
    decreases |rounds|
  {
    if rounds == [] then Outcome(written, StillRunning, 0)
    else if !rounds[0].running then Outcome(written, Stopped, 1)
    else if stack == [] then Outcome(written, Finished, 1)
    else if Fails(stack, percentage, rounds[0]) then
      Outcome(written + Partly(Sends(stack, percentage, rounds[0]), rounds[0].partial), WriteFailed, 1)
    else
      RoundConserves(stack, percentage, rounds[0]);
      var end := Loop(Leaves(stack, percentage, rounds[0]), written + Sends(stack, percentage, rounds[0]),
                      percentage, rounds[1..]);
      end.(used := end.used + 1)
  }

  /** The loop goes on after this round. */
  predicate GoesOn(stack: seq<seq<Bytes>>, percentage: nat, rounds: seq<Round>)
    requires NonEmptyEntries(stack)
  {
    rounds != [] && rounds[0].running && stack != [] && !Fails(stack, percentage, rounds[0])
  }

  /** The rounds of the loop that wait. */
  function IdleRounds(stack: seq<seq<Bytes>>, percentage: nat, rounds: seq<Round>): nat
    requires NonEmptyEntries(stack)
    decreases |rounds|
  {
    if !GoesOn(stack, percentage, rounds) then 0
    else
      RoundConserves(stack, percentage, rounds[0]);
      (if Idles(stack, percentage, rounds[0]) then 1 else 0) +
      IdleRounds(Leaves(stack, percentage, rounds[0]), percentage, rounds[1..])
  }

  /** All that the throttler granted in these rounds. */
  function TotalGranted(rounds: seq<Round>): nat {
    if rounds == [] then 0 else Granted(rounds[0]) + TotalGranted(rounds[1..])
  }

  lemma TotalOfTaken(rounds: seq<Round>, n: nat)
    requires 0 < n <= |rounds|
    ensures TotalGranted(rounds[..n]) == Granted(rounds[0]) + TotalGranted(rounds[1..][..n - 1])
  {
    assert rounds[..n][1..] == rounds[1..][..n - 1];
  }

  lemma PrefixOfPrefix(a: Bytes, b: Bytes, c: Bytes, out: Bytes)
    requires a + b <= out <= (a + b) + c
    ensures a <= out <= a + (b + c)
  {
    Regrouped(a, b, c);
    assert a + b == a + (a + b)[|a|..];
  }

  lemma PartWritten(written: Bytes, sent: Bytes, rest: Bytes, n: nat)
    ensures written <= written + Partly(sent, n) <= written + (sent + rest)
  {
    var part := Partly(sent, n);
    assert sent + rest == part + (sent + rest)[|part|..];
    assert written + (sent + rest) == (written + part) + (sent + rest)[|part|..];
  }

  lemma SentWithinGrant(stack: seq<seq<Bytes>>, percentage: nat, round: Round)
    requires Ready(stack)
    ensures |Sends(stack, percentage, round)| <= Granted(round)
  {
    GrantIsSent(stack, percentage, round);
  }

  /** Whatever the throttler answers: what is written is a prefix of what was to be sent, all of it after a normal end,
      and no more than was granted. */
  lemma {:induction false} LoopWrites(stack: seq<seq<Bytes>>, written: Bytes, percentage: nat, rounds: seq<Round>)
    requires NonEmptyEntries(stack)
    ensures var end := Loop(stack, written, percentage, rounds);
            && end.used <= |rounds|
            && written <= end.written <= written + Remaining(stack)
            && |end.written| <= |written| + TotalGranted(rounds[..end.used])
            && (end.exit == Finished ==> end.written == written + Remaining(stack))
    decreases |rounds|
  {
    if rounds != [] && rounds[0].running && stack != [] {
      var round := rounds[0];
      var sent, after := Sends(stack, percentage, round), Leaves(stack, percentage, round);
      RoundConserves(stack, percentage, round);
      SentWithinGrant(stack, percentage, round);
      TotalOfTaken(rounds, 1);
      if Fails(stack, percentage, round) {
        PartWritten(written, sent, Remaining(after), round.partial);
      } else {
        LoopWrites(after, written + sent, percentage, rounds[1..]);
        var end := Loop(after, written + sent, percentage, rounds[1..]);
        PrefixOfPrefix(written, sent, Remaining(after), end.written);
        Regrouped(written, sent, Remaining(after));
        TotalOfTaken(rounds, end.used + 1);
      }
    }
  }

  /** The exits, in terms of the rounds: the nozzle ran in all but the last, and a stop means that it did not then. */
  predicate ExitsAs(end: Outcome, rounds: seq<Round>) {
    && end.used <= |rounds|
    && (end.exit == Stopped <==> end.used > 0 && !rounds[end.used - 1].running)
    && (end.exit == WriteFailed ==> end.used > 0 && rounds[end.used - 1].writeFails)
    && (end.exit == StillRunning ==> end.used == |rounds|)
    && (forall i :: 0 <= i < end.used - 1 ==> rounds[i].running)
  }

  lemma ExitsLater(end: Outcome, rounds: seq<Round>)
    requires rounds != [] && rounds[0].running && ExitsAs(end, rounds[1..])
    ensures ExitsAs(end.(used := end.used + 1), rounds)
  {
    forall i | 0 <= i < end.used ensures rounds[i].running || i == end.used {
      if i > 0 { assert rounds[1..][i - 1] == rounds[i]; }
    }
    if end.used > 0 { assert rounds[1..][end.used - 1] == rounds[end.used]; }
  }

  lemma {:induction false} LoopExits(stack: seq<seq<Bytes>>, written: Bytes, percentage: nat, rounds: seq<Round>)
    requires NonEmptyEntries(stack)
    ensures ExitsAs(Loop(stack, written, percentage, rounds), rounds)
    decreases |rounds|
  {
    if GoesOn(stack, percentage, rounds) {
      RoundConserves(stack, percentage, rounds[0]);
      var after, sent := Leaves(stack, percentage, rounds[0]), Sends(stack, percentage, rounds[0]);
      LoopExits(after, written + sent, percentage, rounds[1..]);
      ExitsLater(Loop(after, written + sent, percentage, rounds[1..]), rounds);
    }
  }

  /** Rounds that do not wait are at most as many as the measure. */
  lemma {:induction false} LoopIsBounded(stack: seq<seq<Bytes>>, written: Bytes, percentage: nat, rounds: seq<Round>)
    requires NonEmptyEntries(stack)
    ensures var end := Loop(stack, written, percentage, rounds);
            end.used <= Measure(stack) + IdleRounds(stack, percentage, rounds) +
                        (if end.exit == StillRunning then 0 else 1)
    decreases |rounds|
  {
    MeasureIsEnough(stack);
    if GoesOn(stack, percentage, rounds) {
      RoundConserves(stack, percentage, rounds[0]);
      RoundUses(stack, percentage, rounds[0]);
      LoopIsBounded(Leaves(stack, percentage, rounds[0]), written + Sends(stack, percentage, rounds[0]),
                    percentage, rounds[1..]);
    }
  }

  // -------------------------------------------------------------------------
  // The call

  function Write(list: seq<Bytes>, percentage: nat, rounds: seq<Round>): Outcome {
    if list == [] then Outcome([], Finished, 0) else Loop([list], [], percentage, rounds)
  }

  function Waits(list: seq<Bytes>, percentage: nat, rounds: seq<Round>): nat {
    if list == [] then 0 else IdleRounds([list], percentage, rounds)
  }

  lemma OneEntry(list: seq<Bytes>)
    ensures Remaining([list]) == Flatten(list) && Measure([list]) == 2 * |list| - 1
    ensures [] + Remaining([list]) == Flatten(list)
  {
    RemainingPush([], list);
    assert [] + [list] == [list];
  }

  /** What is written is a prefix of the input and no longer than the grants, a normal end has written all of it once
      and in order, and of the rounds that do not wait there are at most two per item. */
  ghost predicate InOrder(list: seq<Bytes>, percentage: nat, rounds: seq<Round>, end: Outcome) {
    && end.written <= Flatten(list)
    && (end.exit == Finished ==> end.written == Flatten(list))
    && ExitsAs(end, rounds)
    && |end.written| <= TotalGranted(rounds[..end.used])
    && end.used <= 2 * |list| + Waits(list, percentage, rounds)
  }

  /** This holds of writeToClient against any sequence of rounds. */
  lemma {:induction false} WriteIsInOrder(list: seq<Bytes>, percentage: nat, rounds: seq<Round>)
    ensures InOrder(list, percentage, rounds, Write(list, percentage, rounds))
  {
    if list != [] {
      OneEntry(list);
      LoopWrites([list], [], percentage, rounds);
      LoopExits([list], [], percentage, rounds);
      LoopIsBounded([list], [], percentage, rounds);
    }
  }

  /** If the nozzle keeps running, no write fails and at most `idle` rounds wait, the call ends within two rounds per
      item and those, and has written everything. */
  lemma {:induction false} FinishesInTime(list: seq<Bytes>, percentage: nat, rounds: seq<Round>, idle: nat)
    requires forall i :: 0 <= i < |rounds| ==> rounds[i].running && !rounds[i].writeFails
    requires Waits(list, percentage, rounds) <= idle && 2 * |list| + idle <= |rounds|
    ensures var end := Write(list, percentage, rounds);
            end.exit == Finished && end.used <= 2 * |list| + idle && end.written == Flatten(list)
  {
    WriteIsInOrder(list, percentage, rounds);
    if list != [] {
      OneEntry(list);
      LoopIsBounded([list], [], percentage, rounds);
    }
  }

  // -------------------------------------------------------------------------
  // An exit without an error

  /** The part of the grants that went out, over the rounds that the loop takes. */
  function Spent(stack: seq<seq<Bytes>>, percentage: nat, rounds: seq<Round>): nat
    requires NonEmptyEntries(stack)
    decreases |rounds|
  {
    if !GoesOn(stack, percentage, rounds) then 0
    else
      RoundConserves(stack, percentage, rounds[0]);
      |Sends(stack, percentage, rounds[0])| + Spent(Leaves(stack, percentage, rounds[0]), percentage, rounds[1..])
  }

  lemma {:induction false} SpentIsWritten(stack: seq<seq<Bytes>>, written: Bytes, percentage: nat, rounds: seq<Round>)
    requires NonEmptyEntries(stack) && Loop(stack, written, percentage, rounds).exit != WriteFailed
    ensures |Loop(stack, written, percentage, rounds).written| == |written| + Spent(stack, percentage, rounds)
    decreases |rounds|
  {
    if GoesOn(stack, percentage, rounds) {
      RoundConserves(stack, percentage, rounds[0]);
      SpentIsWritten(Leaves(stack, percentage, rounds[0]), written + Sends(stack, percentage, rounds[0]),
                     percentage, rounds[1..]);
    }
  }

  /** The answer is one that the throttler promises: all bytes, the minimal part, the first item or nothing. */
  predicate Promised(stack: seq<seq<Bytes>>, percentage: nat, round: Round)
    requires Ready(stack)
  {
    var cur := Top(stack);
    round.canSend in {Size(cur), Size(cur[..Minimal(cur, percentage)]), Size(cur[..1]), 0}
  }

  /** The throttler keeps its promise in every round that asks it. */
  predicate AllPromised(stack: seq<seq<Bytes>>, percentage: nat, rounds: seq<Round>)
    requires NonEmptyEntries(stack)
    decreases |rounds|
  {
    if !GoesOn(stack, percentage, rounds) then true
    else
      RoundConserves(stack, percentage, rounds[0]);
      && Promised(stack, percentage, rounds[0])
      && AllPromised(Leaves(stack, percentage, rounds[0]), percentage, rounds[1..])
  }

  lemma PromisedIsSent(stack: seq<seq<Bytes>>, percentage: nat, round: Round)
    requires Ready(stack) && Promised(stack, percentage, round)
    ensures |Sends(stack, percentage, round)| == Granted(round)
  {
    GrantIsSent(stack, percentage, round);
  }

  /** Then the bytes that went out are the bytes granted; the round that ends the call asks for nothing. */
  lemma {:induction false} SpentIsGranted(stack: seq<seq<Bytes>>, written: Bytes, percentage: nat, rounds: seq<Round>)
    requires NonEmptyEntries(stack) && AllPromised(stack, percentage, rounds)
    requires Loop(stack, written, percentage, rounds).exit in {Finished, Stopped}
    ensures 0 < Loop(stack, written, percentage, rounds).used <= |rounds|
    ensures Spent(stack, percentage, rounds) ==
            TotalGranted(rounds[..Loop(stack, written, percentage, rounds).used - 1])
    decreases |rounds|
  {
    if GoesOn(stack, percentage, rounds) {
      RoundConserves(stack, percentage, rounds[0]);
      PromisedIsSent(stack, percentage, rounds[0]);
      var after, sent := Leaves(stack, percentage, rounds[0]), Sends(stack, percentage, rounds[0]);
      SpentIsGranted(after, written + sent, percentage, rounds[1..]);
      TotalOfTaken(rounds, Loop(after, written + sent, percentage, rounds[1..]).used);
    }
  }

  /** writeToClient returns no error after a normal end and when the nozzle stops. Exactly when it has then written
      everything: the grants that it could use cover the input. With a throttler that keeps its promise these are all
      grants from before the nozzle stopped. */
  lemma {:induction false} CompleteIffGranted(list: seq<Bytes>, percentage: nat, rounds: seq<Round>)
    requires list != [] && Write(list, percentage, rounds).exit in {Finished, Stopped}
    ensures var end := Write(list, percentage, rounds);
            && 0 < end.used <= |rounds|
            && (end.written == Flatten(list) <==> Spent([list], percentage, rounds) >= Size(list))
            && (AllPromised([list], percentage, rounds) ==>
                  Spent([list], percentage, rounds) == TotalGranted(rounds[..end.used - 1]))
  {
    WriteIsInOrder(list, percentage, rounds);
    SpentIsWritten([list], [], percentage, rounds);
    if AllPromised([list], percentage, rounds) { SpentIsGranted([list], [], percentage, rounds); }
  }

  /** A nozzle that stops before the first round: no error, and nothing written. */
  lemma StopLosesAll(list: seq<Bytes>, percentage: nat, rounds: seq<Round>)
    requires list != [] && rounds != [] && !rounds[0].running
    ensures Write(list, percentage, rounds) == Outcome([], Stopped, 1)
  {
  }

  lemma OneItem(a: Bytes)
    ensures Flatten([a]) == a
  {
    assert [a][1..] == [] && a + [] == a;
  }

  lemma TwoItems(a: Bytes, b: Bytes)
    ensures Flatten([a]) == a && Size([a, b]) == |a| + |b|
  {
    OneItem(a);
    OneItem(b);
    assert [a] + [b] == [a, b];
    FlattenConcat([a], [b]);
  }

  /** One that stops after the first of two items: no error, and the second is not written. */
  lemma StopLosesTheRest(a: Bytes, b: Bytes, percentage: nat)
    requires a != [] && b != []
    ensures var rounds := [Round(true, |a|, 0, false, 0), Round(false, 0, 0, false, 0)];
            Write([a, b], percentage, rounds) == Outcome(a, Stopped, 2)
  {
    var cur := [a, b];
    var round, stop := Round(true, |a|, 0, false, 0), Round(false, 0, 0, false, 0);
    TwoItems(a, b);
    assert cur[..1] == [a] && cur[..2] == cur;
    assert CutOf([cur], percentage, round) == 1;
    assert [] + Sends([cur], percentage, round) == a;
    RoundConserves([cur], percentage, round);
    var rounds := [round, stop];
    assert rounds[1..] == [stop] && GoesOn([cur], percentage, rounds);
    assert Loop(Leaves([cur], percentage, round), a, percentage, [stop]) == Outcome(a, Stopped, 1);
    assert Loop([cur], [], percentage, rounds) == Outcome(a, Stopped, 2);
  }

  // -------------------------------------------------------------------------
  // With the bandwidth throttler

  /** The limit and the quota that a call of Throttle finds. */
  datatype Meter = Meter(limit: nat, quota: int)

  function AskFor(cur: seq<Bytes>, percentage: nat): (ask: Ask)
    requires cur != []
    ensures ask.first <= ask.min <= ask.all
  {
    SizeGrows(cur, 1, Minimal(cur, percentage));
    SizeGrows(cur, Minimal(cur, percentage), |cur|);
    assert cur[..|cur|] == cur;
    Ask(Size(cur), Size(cur[..Minimal(cur, percentage)]), Size(cur[..1]))
  }

  predicate AnsweredBy(stack: seq<seq<Bytes>>, percentage: nat, slots: nat, meter: Meter, round: Round)
    requires Ready(stack) && slots > 0
  {
    Answer(round.canSend, round.allowed) == Decide(meter.limit, slots, meter.quota, AskFor(Top(stack), percentage))
  }

  lemma NothingFits(cur: seq<Bytes>, allowed: int)
    requires cur != []
    ensures Allowed(cur, allowed) == 0 <==> allowed <= 0 || Size(cur[..1]) > allowed
    ensures allowed < Size(cur) ==> Allowed(cur, allowed) < |cur|
  {
    SizeFromFirst(cur, 1);
    FittingIsLongest(cur, allowed);
    assert cur[..|cur|] == cur;
  }

  /** With the throttler's answer a round waits exactly when the caller is denied: the quota is used up, or does not
      cover the first item although that is no larger than a slot's share. */
  lemma ThrottledIdlesIff(stack: seq<seq<Bytes>>, percentage: nat, slots: nat, meter: Meter, round: Round)
    requires Ready(stack) && slots > 0 && AnsweredBy(stack, percentage, slots, meter, round)
    ensures var first := Size(Top(stack)[..1]);
            Idles(stack, percentage, round) <==>
            && meter.limit > 0 && first > 0
            && (meter.quota <= 0 || meter.quota < first <= PerSlot(meter.limit, slots))
  {
    var ask := AskFor(Top(stack), percentage);
    DeniedIff(meter.limit, slots, meter.quota, ask);
    IdlesIff(stack, percentage, round);
    GrantIsSent(stack, percentage, round);
    NothingFits(Top(stack), round.allowed);
  }

  /** Every round that asks is answered by the throttler. */
  predicate AllAnswered(stack: seq<seq<Bytes>>, percentage: nat, slots: nat, meters: seq<Meter>, rounds: seq<Round>)
    requires NonEmptyEntries(stack) && slots > 0 && |meters| == |rounds|
    decreases |rounds|
  {
    if !GoesOn(stack, percentage, rounds) then true
    else
      RoundConserves(stack, percentage, rounds[0]);
      && AnsweredBy(stack, percentage, slots, meters[0], rounds[0])
      && AllAnswered(Leaves(stack, percentage, rounds[0]), percentage, slots, meters[1..], rounds[1..])
  }

  /** The bandwidth throttler keeps its promise. */
  lemma {:induction false} AnsweredIsPromised(stack: seq<seq<Bytes>>, percentage: nat, slots: nat,
                                              meters: seq<Meter>, rounds: seq<Round>)
    requires NonEmptyEntries(stack) && slots > 0 && |meters| == |rounds|
    requires AllAnswered(stack, percentage, slots, meters, rounds)
    ensures AllPromised(stack, percentage, rounds)
    decreases |rounds|
  {
    if GoesOn(stack, percentage, rounds) {
      RoundConserves(stack, percentage, rounds[0]);
      AnsweredIsPromised(Leaves(stack, percentage, rounds[0]), percentage, slots, meters[1..], rounds[1..]);
    }
  }

  /** Less than a slot's share is left. */
  predicate Short(meter: Meter, slots: nat)
    requires slots > 0
  {
    meter.limit > 0 && (meter.quota <= 0 || meter.quota < PerSlot(meter.limit, slots))
  }

  function ShortRounds(meters: seq<Meter>, slots: nat): nat
    requires slots > 0
  {
    if meters == [] then 0 else (if Short(meters[0], slots) then 1 else 0) + ShortRounds(meters[1..], slots)
  }

  lemma {:induction false} IdleMeansShort(stack: seq<seq<Bytes>>, percentage: nat, slots: nat, meters: seq<Meter>,
                                          rounds: seq<Round>)
    requires NonEmptyEntries(stack) && slots > 0 && |meters| == |rounds|
    requires AllAnswered(stack, percentage, slots, meters, rounds)
    ensures IdleRounds(stack, percentage, rounds) <= ShortRounds(meters, slots)
    decreases |rounds|
  {
    if GoesOn(stack, percentage, rounds) {
      RoundConserves(stack, percentage, rounds[0]);
      ThrottledIdlesIff(stack, percentage, slots, meters[0], rounds[0]);
      IdleMeansShort(Leaves(stack, percentage, rounds[0]), percentage, slots, meters[1..], rounds[1..]);
    }
  }

  /** Under the bandwidth throttler, whatever the sizes of the items: if the nozzle keeps running and no write fails,
      the call has written everything after two rounds per item and the rounds that found less than a slot's share. */
  lemma {:induction false} FinishesUnderThrottler(list: seq<Bytes>, percentage: nat, slots: nat, meters: seq<Meter>,
                                                  rounds: seq<Round>)
    requires slots > 0 && |meters| == |rounds|
    requires forall i :: 0 <= i < |rounds| ==> rounds[i].running && !rounds[i].writeFails
    requires list != [] ==> AllAnswered([list], percentage, slots, meters, rounds)
    requires 2 * |list| + ShortRounds(meters, slots) <= |rounds|
    ensures var end := Write(list, percentage, rounds);
            && end.exit == Finished && end.written == Flatten(list)
            && end.used <= 2 * |list| + ShortRounds(meters, slots)
  {
    if list != [] { IdleMeansShort([list], percentage, slots, meters, rounds); }
    FinishesInTime(list, percentage, rounds, ShortRounds(meters, slots));
  }

  /** Without a bandwidth limit everything goes out in the first round. */
  lemma UnlimitedWritesAtOnce(list: seq<Bytes>, percentage: nat, slots: nat, quota: int, rounds: seq<Round>)
    requires slots > 0 && list != [] && |rounds| >= 2
    requires AnsweredBy([list], percentage, slots, Meter(0, quota), rounds[0])
    requires rounds[0].running && rounds[1].running && !rounds[0].writeFails
    ensures Write(list, percentage, rounds) == Outcome(Flatten(list), Finished, 2)
  {
    var round := rounds[0];
    assert list[..|list|] == list && list[|list|..] == [];
    assert CutOf([list], percentage, round) == |list|;
    assert [] + Sends([list], percentage, round) == Flatten(list);
    assert Leaves([list], percentage, round) == [];
    assert GoesOn([list], percentage, rounds) && rounds[1..][0] == rounds[1];
    RoundConserves([list], percentage, round);
    assert Loop([], Flatten(list), percentage, rounds[1..]) == Outcome(Flatten(list), Finished, 1);
  }

  // -------------------------------------------------------------------------
  // In ticks

  /** The round ends with a call of Wait: something is left, and not even its first item fits the allowance. */
  predicate WaitsAfter(stack: seq<seq<Bytes>>, percentage: nat, round: Round)
    requires Ready(stack)
  {
    var rest := Top(stack)[CutOf(stack, percentage, round)..];
    !Fails(stack, percentage, round) && rest != [] && Allowed(rest, round.allowed) == 0
  }

  /** The throttler after a round has asked it. */
  function AfterAsking(t: State, slots: nat, limit: nat, stack: seq<seq<Bytes>>, percentage: nat): State
    requires Ready(stack) && slots > 0
  {
    Step(t, slots, Grant(limit, AskFor(Top(stack), percentage)))
  }

  /** The call under the throttler: every round is answered from the quota it finds, `gaps` is what ticker and other
      callers do before the next round, and who waits is woken by a tick. */
  ghost predicate Served(stack: seq<seq<Bytes>>, percentage: nat, slots: nat, limit: nat, t: State,
                         gaps: seq<seq<Action>>, rounds: seq<Round>)
    requires NonEmptyEntries(stack) && slots > 0 && |gaps| == |rounds|
    decreases |rounds|
  {
    if !GoesOn(stack, percentage, rounds) then true
    else
      RoundConserves(stack, percentage, rounds[0]);
      && AnsweredBy(stack, percentage, slots, Meter(limit, t.quota), rounds[0])
      && AllSteady(gaps[0], limit)
      && (WaitsAfter(stack, percentage, rounds[0]) ==> HasTick(gaps[0]))
      && Served(Leaves(stack, percentage, rounds[0]), percentage, slots, limit,
                Run(AfterAsking(t, slots, limit, stack, percentage), slots, gaps[0]), gaps[1..], rounds[1..])
  }

  /** The throttler at the end of the call. */
  function Afterwards(stack: seq<seq<Bytes>>, percentage: nat, slots: nat, limit: nat, t: State,
                      gaps: seq<seq<Action>>, rounds: seq<Round>): State
    requires NonEmptyEntries(stack) && slots > 0 && |gaps| == |rounds|
    decreases |rounds|
  {
    if !GoesOn(stack, percentage, rounds) then t
    else
      RoundConserves(stack, percentage, rounds[0]);
      Afterwards(Leaves(stack, percentage, rounds[0]), percentage, slots, limit,
                 Run(AfterAsking(t, slots, limit, stack, percentage), slots, gaps[0]), gaps[1..], rounds[1..])
  }

  /** The ticks during the call that find less than a slot's share. */
  function TicksShort(stack: seq<seq<Bytes>>, percentage: nat, slots: nat, limit: nat, t: State,
                      gaps: seq<seq<Action>>, rounds: seq<Round>): nat
    requires NonEmptyEntries(stack) && slots > 0 && |gaps| == |rounds|
    decreases |rounds|
  {
    if !GoesOn(stack, percentage, rounds) then 0
    else
      RoundConserves(stack, percentage, rounds[0]);
      var asked := AfterAsking(t, slots, limit, stack, percentage);
      ShortTicks(asked, slots, gaps[0], limit) +
      TicksShort(Leaves(stack, percentage, rounds[0]), percentage, slots, limit, Run(asked, slots, gaps[0]),
                 gaps[1..], rounds[1..])
  }

  /** A round that changes nothing found the quota short, takes nothing and waits. */
  lemma IdleIsShort(stack: seq<seq<Bytes>>, percentage: nat, slots: nat, limit: nat, t: State, round: Round)
    requires Ready(stack) && slots > 0 && PerSlot(limit, slots) > 0 && Settled(t, limit)
    requires AnsweredBy(stack, percentage, slots, Meter(limit, t.quota), round) && Idles(stack, percentage, round)
    ensures AfterAsking(t, slots, limit, stack, percentage).quota < PerSlot(limit, slots)
    ensures WaitsAfter(stack, percentage, round)
  {
    ThrottledIdlesIff(stack, percentage, slots, Meter(limit, t.quota), round);
    IdlesIff(stack, percentage, round);
    NothingFits(Top(stack), round.allowed);
    assert Top(stack)[0..] == Top(stack);
    var ask := AskFor(Top(stack), percentage);
    assert 0 <= Decide(limit, slots, t.quota, ask).canSend;
  }

  /** Every round that changes nothing is followed by a tick that finds less than a slot's share. */
  lemma {:induction false} IdleRoundsTick(stack: seq<seq<Bytes>>, percentage: nat, slots: nat, limit: nat, t: State,
                                          gaps: seq<seq<Action>>, rounds: seq<Round>)
    requires NonEmptyEntries(stack) && slots > 0 && |gaps| == |rounds| && PerSlot(limit, slots) > 0
    requires Settled(t, limit) && Served(stack, percentage, slots, limit, t, gaps, rounds)
    ensures IdleRounds(stack, percentage, rounds) <= TicksShort(stack, percentage, slots, limit, t, gaps, rounds)
    decreases |rounds|
  {
    if GoesOn(stack, percentage, rounds) {
      RoundConserves(stack, percentage, rounds[0]);
      var asked := AfterAsking(t, slots, limit, stack, percentage);
      SteadyStep(t, slots, Grant(limit, AskFor(Top(stack), percentage)), limit);
      SteadyRun(asked, slots, gaps[0], limit);
      if Idles(stack, percentage, rounds[0]) {
        IdleIsShort(stack, percentage, slots, limit, t, rounds[0]);
        FirstTickIsShort(asked, slots, gaps[0], limit);
      }
      IdleRoundsTick(Leaves(stack, percentage, rounds[0]), percentage, slots, limit, Run(asked, slots, gaps[0]),
                     gaps[1..], rounds[1..]);
    }
  }

  /** Bytes granted and quota, counted up to the ceiling. */
  function Account(t: State, slots: nat, limit: nat): int
    requires slots > 0
  {
    t.granted + Least(t.quota, Ceiling(limit, slots))
  }

  /** So many ticks are paid for by the growth of an account. */
  predicate Paid(gain: nat, ticks: nat, before: int, after: int) { gain * ticks <= after - before }

  lemma PaidTogether(gain: nat, a: nat, b: nat, x: int, y: int, z: int)
    requires Paid(gain, a, x, y) && Paid(gain, b, y, z)
    ensures Paid(gain, a + b, x, z)
  {
    assert gain * (a + b) == gain * a + gain * b;
  }

  lemma GapGains(t: State, slots: nat, limit: nat, ask: Ask, gap: seq<Action>)
    requires slots > 0 && Settled(t, limit) && AllSteady(gap, limit) && PerSlot(limit, slots) > 0
    ensures var asked := Step(t, slots, Grant(limit, ask));
            && Settled(Run(asked, slots, gap), limit)
            && Paid(Gain(limit, slots), ShortTicks(asked, slots, gap, limit),
                    Account(t, slots, limit), Account(Run(asked, slots, gap), slots, limit))
  {
    var asked := Step(t, slots, Grant(limit, ask));
    CeilingWithin(limit, slots);
    StepGains(t, slots, Grant(limit, ask), limit, Gain(limit, slots), Ceiling(limit, slots));
    SteadyStep(t, slots, Grant(limit, ask), limit);
    SteadyRun(asked, slots, gap, limit);
    ShortTicksAreBounded(asked, slots, gap, limit);
  }

  lemma NoTicksPaid(gain: nat, x: int)
    ensures Paid(gain, 0, x, x)
  {
  }

  /** Such ticks are paid for by bytes granted, to this caller or to others. */
  lemma {:induction false} TicksArePaid(stack: seq<seq<Bytes>>, percentage: nat, slots: nat, limit: nat, t: State,
                                        gaps: seq<seq<Action>>, rounds: seq<Round>)
    requires NonEmptyEntries(stack) && slots > 0 && |gaps| == |rounds| && PerSlot(limit, slots) > 0
    requires Settled(t, limit) && Served(stack, percentage, slots, limit, t, gaps, rounds)
    ensures Paid(Gain(limit, slots), TicksShort(stack, percentage, slots, limit, t, gaps, rounds),
                 Account(t, slots, limit),
                 Account(Afterwards(stack, percentage, slots, limit, t, gaps, rounds), slots, limit))
    decreases |rounds|
  {
    if !GoesOn(stack, percentage, rounds) {
      NoTicksPaid(Gain(limit, slots), Account(t, slots, limit));
    } else {
      RoundConserves(stack, percentage, rounds[0]);
      var asked := AfterAsking(t, slots, limit, stack, percentage);
      var after, next := Leaves(stack, percentage, rounds[0]), Run(asked, slots, gaps[0]);
      GapGains(t, slots, limit, AskFor(Top(stack), percentage), gaps[0]);
      TicksArePaid(after, percentage, slots, limit, next, gaps[1..], rounds[1..]);
      var end := Afterwards(after, percentage, slots, limit, next, gaps[1..], rounds[1..]);
      PaidTogether(Gain(limit, slots), ShortTicks(asked, slots, gaps[0], limit),
                   TicksShort(after, percentage, slots, limit, next, gaps[1..], rounds[1..]),
                   Account(t, slots, limit), Account(next, slots, limit), Account(end, slots, limit));
    }
  }

  /** Under the bandwidth throttler, in ticks: if the nozzle keeps running and no write fails, the call has written
      everything after two rounds per item and one for each tick that found less than a slot's share; and there are only
      as many such ticks as the bytes granted to this caller and the others pay for. */
  lemma {:induction false} FinishesInTicks(list: seq<Bytes>, percentage: nat, slots: nat, limit: nat, t: State,
                                           gaps: seq<seq<Action>>, rounds: seq<Round>)
    requires list != [] && slots > 0 && |gaps| == |rounds| && PerSlot(limit, slots) > 0 && Settled(t, limit)
    requires forall i :: 0 <= i < |rounds| ==> rounds[i].running && !rounds[i].writeFails
    requires Served([list], percentage, slots, limit, t, gaps, rounds)
    ensures var short := TicksShort([list], percentage, slots, limit, t, gaps, rounds);
            var r := Afterwards([list], percentage, slots, limit, t, gaps, rounds);
            var end := Write(list, percentage, rounds);
            && Gain(limit, slots) * short <= r.granted - t.granted + Ceiling(limit, slots) -
                                             Least(t.quota, Ceiling(limit, slots))
            && (2 * |list| + short <= |rounds| ==>
                  end.exit == Finished && end.written == Flatten(list) && end.used <= 2 * |list| + short)
  {
    IdleRoundsTick([list], percentage, slots, limit, t, gaps, rounds);
    TicksArePaid([list], percentage, slots, limit, t, gaps, rounds);
    var short := TicksShort([list], percentage, slots, limit, t, gaps, rounds);
    if 2 * |list| + short <= |rounds| { FinishesInTime(list, percentage, rounds, short); }
  }

  /** Nobody else asks. */
  ghost predicate Alone(gaps: seq<seq<Action>>) {
    forall i, j :: 0 <= i < |gaps| && 0 <= j < |gaps[i]| ==> gaps[i][j].Tick?
  }

  lemma {:induction false} TicksGrantNothing(t: State, slots: nat, actions: seq<Action>)
    requires slots > 0 && forall j :: 0 <= j < |actions| ==> actions[j].Tick?
    ensures Run(t, slots, actions).granted == t.granted
  {
    if actions != [] { TicksGrantNothing(t, slots, actions[..|actions| - 1]); }
  }

  lemma AskingGrants(stack: seq<seq<Bytes>>, percentage: nat, slots: nat, limit: nat, t: State, round: Round)
    requires Ready(stack) && slots > 0 && Settled(t, limit)
    requires AnsweredBy(stack, percentage, slots, Meter(limit, t.quota), round)
    ensures AfterAsking(t, slots, limit, stack, percentage).granted ==
            t.granted + |Sends(stack, percentage, round)|
  {
    GrantIsSent(stack, percentage, round);
  }

  lemma {:induction false} AloneGrants(stack: seq<seq<Bytes>>, percentage: nat, slots: nat, limit: nat, t: State,
                                       gaps: seq<seq<Action>>, rounds: seq<Round>)
    requires NonEmptyEntries(stack) && slots > 0 && |gaps| == |rounds| && Alone(gaps)
    requires Settled(t, limit) && Served(stack, percentage, slots, limit, t, gaps, rounds)
    ensures Afterwards(stack, percentage, slots, limit, t, gaps, rounds).granted ==
            t.granted + Spent(stack, percentage, rounds)
    decreases |rounds|
  {
    if GoesOn(stack, percentage, rounds) {
      RoundConserves(stack, percentage, rounds[0]);
      var asked := AfterAsking(t, slots, limit, stack, percentage);
      SteadyStep(t, slots, Grant(limit, AskFor(Top(stack), percentage)), limit);
      SteadyRun(asked, slots, gaps[0], limit);
      AskingGrants(stack, percentage, slots, limit, t, rounds[0]);
      TicksGrantNothing(asked, slots, gaps[0]);
      AloneGrants(Leaves(stack, percentage, rounds[0]), percentage, slots, limit, Run(asked, slots, gaps[0]),
                  gaps[1..], rounds[1..]);
    }
  }

  lemma Cancels(n: nat, a: int, b: int)
    ensures n > 0 && n * a <= n * b ==> a <= b
  {
    assert n * a == n * b + n * (a - b);
  }

  /** Alone, a caller is done after a number of rounds that depends on its bytes, its items and the debt it finds only:
      two per item, and as many as its bytes, the debt and at most two more shares have slot's shares. */
  lemma {:induction false} FinishesAlone(list: seq<Bytes>, percentage: nat, slots: nat, limit: nat, t: State,
                                         gaps: seq<seq<Action>>, rounds: seq<Round>)
    requires list != [] && slots > 0 && |gaps| == |rounds| && PerSlot(limit, slots) > 0 && Settled(t, limit)
    requires forall i :: 0 <= i < |rounds| ==> rounds[i].running && !rounds[i].writeFails
    requires Served([list], percentage, slots, limit, t, gaps, rounds) && Alone(gaps)
    requires Gain(limit, slots) * (|rounds| - 2 * |list|) >=
             Size(list) + Ceiling(limit, slots) - Least(t.quota, Ceiling(limit, slots))
    ensures var end := Write(list, percentage, rounds); end.exit == Finished && end.written == Flatten(list)
  {
    FinishesInTicks(list, percentage, slots, limit, t, gaps, rounds);
    AloneGrants([list], percentage, slots, limit, t, gaps, rounds);
    LoopExits([list], [], percentage, rounds);
    SpentIsWritten([list], [], percentage, rounds);
    WriteIsInOrder(list, percentage, rounds);
    Cancels(Gain(limit, slots), TicksShort([list], percentage, slots, limit, t, gaps, rounds), |rounds| - 2 * |list|);
  }

  // -------------------------------------------------------------------------
  // The methods

  /** writeToClientWithoutThrottling: all of the bytes, or a prefix of them on an error. */
  method WriteOut(sent: Bytes, piece: Bytes, round: Round) returns (out: Bytes, failed: bool)
    ensures failed == round.writeFails
    ensures out == sent + if failed then Partly(piece, round.partial) else piece
  {
    failed := round.writeFails;
    out := sent + if failed then piece[..if round.partial <= |piece| then round.partial else |piece|] else piece;
  }

  /** The end of a round: the part that fits the allowance goes on top of the rest. If no item fits, it waits. */
  method PushBack(stack: Stack, rest: seq<Bytes>, allowed: int) returns (waits: bool)
    requires rest != []
    modifies stack
    ensures stack.items == PushedBack(old(stack.items), rest, allowed)
    ensures waits <==> Allowed(rest, allowed) == 0
  {
    var splitIndex := ComputeSplitIndex(rest, allowed);
    waits := splitIndex < 0;
    if waits {
      stack.Push(rest);
    } else {
      if splitIndex < |rest| - 1 {
        stack.Push(rest[splitIndex + 1..]);
      }
      stack.Push(rest[..splitIndex + 1]);
      assert splitIndex == |rest| - 1 ==> rest[..splitIndex + 1] == rest;
    }
  }

  /** The middle of a round: send what the throttler granted. All of the bytes, the minimal part or the first item go
      out if their size is granted, in this order of preference, and nothing for any other number. */
  method SendGranted(sent: Bytes, cur: seq<Bytes>, percentage: nat, round: Round)
    returns (out: Bytes, rest: seq<Bytes>, failed: bool)
    requires cur != []
    ensures var k := Cut(cur, percentage, round.canSend);
            && rest == cur[k..]
            && (failed <==> round.writeFails && k > 0)
            && out == sent + if failed then Partly(Flatten(cur[..k]), round.partial) else Flatten(cur[..k])
  {
    var all, min, minIndex, first := ComputeNumberOfBytes(cur, percentage);
    assert cur[..|cur|] == cur;
    if round.canSend == all {
      out, failed := WriteOut(sent, Flatten(cur), round);
      rest := [];
    } else if round.canSend == min {
      out, failed := WriteOut(sent, Flatten(cur[..minIndex + 1]), round);
      rest := cur[minIndex + 1..];
    } else if round.canSend == first {
      out, failed := WriteOut(sent, Flatten(cur[..1]), round);
      rest := cur[1..];
    } else {
      out, rest, failed := sent, cur, false;
      assert sent + [] == sent;
    }
  }

  /** One pass of the loop of writeToClient on a non-empty stack. */
  method OneRound(stack: Stack, sent: Bytes, percentage: nat, round: Round)
    returns (out: Bytes, failed: bool, waited: bool)
    requires Ready(stack.items)
    modifies stack
    ensures failed == Fails(old(stack.items), percentage, round)
    ensures out == sent + if failed then Partly(Sends(old(stack.items), percentage, round), round.partial)
                          else Sends(old(stack.items), percentage, round)
    ensures !failed ==> stack.items == Leaves(old(stack.items), percentage, round)
    ensures var rest := Top(old(stack.items))[CutOf(old(stack.items), percentage, round)..];
            waited <==> !failed && rest != [] && Allowed(rest, round.allowed) == 0
  {
    waited := false;
    ghost var before := stack.items;
    TopAndBelow(before);
    var cur := stack.Pop();
    assert cur == Top(before) && stack.items == Below(before);
    var rest;
    out, rest, failed := SendGranted(sent, cur, percentage, round);
    if !failed && |rest| > 0 {
      waited := PushBack(stack, rest, round.allowed);
    }
  }

  /** An outcome after `used` rounds before it. */
  function Later(end: Outcome, used: nat): Outcome { end.(used := end.used + used) }

  /** The loop stands before round `used`, and its outcome will be `total`. */
  ghost predicate Underway(stack: seq<seq<Bytes>>, written: Bytes, percentage: nat, rounds: seq<Round>, used: nat,
                           total: Outcome) {
    && used <= |rounds| && NonEmptyEntries(stack)
    && Later(Loop(stack, written, percentage, rounds[used..]), used) == total
  }

  lemma OneMoreRound(stack: seq<seq<Bytes>>, written: Bytes, percentage: nat, rounds: seq<Round>, used: nat,
                     total: Outcome)
    requires used < |rounds| && Underway(stack, written, percentage, rounds, used, total)
    requires Ready(stack) && rounds[used].running && !Fails(stack, percentage, rounds[used])
    ensures Underway(Leaves(stack, percentage, rounds[used]), written + Sends(stack, percentage, rounds[used]),
                     percentage, rounds, used + 1, total)
  {
    RoundConserves(stack, percentage, rounds[used]);
    assert rounds[used..][1..] == rounds[used + 1..];
  }

  /** How the loop ends at round `used`. */
  lemma LastRound(stack: seq<seq<Bytes>>, written: Bytes, percentage: nat, rounds: seq<Round>, used: nat,
                  total: Outcome)
    requires Underway(stack, written, percentage, rounds, used, total)
    ensures used == |rounds| ==> total == Outcome(written, StillRunning, used)
    ensures used < |rounds| && !rounds[used].running ==> total == Outcome(written, Stopped, used + 1)
    ensures used < |rounds| && rounds[used].running && stack == [] ==> total == Outcome(written, Finished, used + 1)
    ensures used < |rounds| && rounds[used].running && stack != [] && Fails(stack, percentage, rounds[used]) ==>
              var part := Partly(Sends(stack, percentage, rounds[used]), rounds[used].partial);
              total == Outcome(written + part, WriteFailed, used + 1)
  {
  }

  method WriteToClient(list: seq<Bytes>, percentage: nat, rounds: seq<Round>)
    returns (written: Bytes, exit: Exit, used: nat)
    ensures Outcome(written, exit, used) == Write(list, percentage, rounds)
    ensures InOrder(list, percentage, rounds, Outcome(written, exit, used))
  {
    WriteIsInOrder(list, percentage, rounds);
    written, used := [], 0;
    if |list| == 0 {
      return [], Finished, 0;
    }
    var stack := new Stack();
    stack.Push(list);
    ghost var total := Write(list, percentage, rounds);
    assert rounds[0..] == rounds && [] + [list] == [list];
    while used < |rounds|
      invariant used <= |rounds| && fresh(stack) && NonEmptyEntries(stack.items)
      invariant Underway(stack.items, written, percentage, rounds, used, total)
    {
      LastRound(stack.items, written, percentage, rounds, used, total);
      ghost var before, sent := stack.items, written;
      var round := rounds[used];
      if !round.running {
        return written, Stopped, used + 1;
      }
      if stack.Empty() {
        return written, Finished, used + 1;
      }
      var failed, waited;
      written, failed, waited := OneRound(stack, written, percentage, round);
      if failed {
        return written, WriteFailed, used + 1;
      }
      OneMoreRound(before, sent, percentage, rounds, used, total);
      used := used + 1;
    }
    LastRound(stack.items, written, percentage, rounds, used, total);
    exit := StillRunning;
  }
}
