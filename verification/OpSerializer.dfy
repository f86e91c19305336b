/**
 The pipeline operation serializer: one job queue per topic, a handler goroutine
 started on demand, a cleanup goroutine that races with new jobs, and a shutdown
 that releases the pipeline manager.

 Every critical section of the source is one `Action`; `Step` is total, an action
 that is not enabled leaves the state alone, so a run is any sequence of actions.
 */
module OpSerializer {

  const MAX_QUEUED_JOBS: nat := 1000

  datatype Topic = Topic(name: string)

  datatype JobType = GetOrCreate | InitPipeline | UpdatePipeline | DeletePipeline | ReinitStream

  datatype Job = Job(topic: Topic, kind: JobType, payload: int)

  /** Where a goroutine of the serializer stands. All but `Cleaning` are handlers. */
  datatype Goroutine =
    | Starting(topic: Topic)                       // before the lookup of its channel
    | Serving(topic: Topic, ch: nat)               // at the select
    | Holding(topic: Topic, ch: nat, job: Job)     // job taken, stopped flag not read yet
    | Executing(topic: Topic, ch: nat, job: Job)   // inside the pipeline manager
    | Drained(topic: Topic)                        // took the default branch
    | Leaving(topic: Topic)                        // only the deferred Done is left
    | Cleaning(topic: Topic)                       // waits for the write lock on the map

  datatype State = State(
    topicMap: map<Topic, nat>,
    chans: map<nat, seq<Job>>,
    nextChan: nat,
    threads: map<nat, Goroutine>,
    nextThread: nat,
    waitCount: int,
    stopped: bool,
    manager: bool,              // false once pipelineMgr is nil
    racing: multiset<Job>,      // callers between the two lookups of distributeJob
    accepted: seq<Job>,         // history: jobs put into a channel, in order
    executed: seq<Job>,         // history: jobs carried out, in order
    dropped: seq<Job>,          // history: jobs taken from a channel and thrown away
    lookupFailed: bool,         // history: a handler found no channel for its topic
    nilManagerUsed: bool)       // history: a job was run without a pipeline manager

  datatype Action =
    | Send(job: Job)        // distributeJob under the read lock
    | Create(job: Job)      // distributeJob under the write lock
    | Advance(id: nat)      // the next critical section of a goroutine
    | SetStopped            // Stop, first half
    | ReleaseManager        // Stop, after the wait

  const Initial :=
    State(map[], map[], 0, map[], 0, 0, false, true, multiset{}, [], [], [], false, false)

  /** Contents of a channel. */
  function Chan(s: State, ch: nat): seq<Job> {
    if ch in s.chans then s.chans[ch] else []
  }

  function Enqueue(s: State, job: Job): State
    requires job.topic in s.topicMap
  {
    var ch := s.topicMap[job.topic];
    if |Chan(s, ch)| < MAX_QUEUED_JOBS then
      s.(chans := s.chans[ch := Chan(s, ch) + [job]], accepted := s.accepted + [job])
    else
      s
  }

  function Spawn(s: State, g: Goroutine): State {
    s.(threads := s.threads[s.nextThread := g], nextThread := s.nextThread + 1, waitCount := s.waitCount + 1)
  }

  function Move(s: State, id: nat, g: Goroutine): State {
    s.(threads := s.threads[id := g])
  }

  function Exit(s: State, id: nat): State {
    s.(threads := s.threads - {id}, waitCount := s.waitCount - 1)
  }

  function SendStep(s: State, job: Job): State {
    if job.topic in s.topicMap then Enqueue(s, job)
    else s.(racing := s.racing + multiset{job})
  }

  function Open(s: State, job: Job): State {
    Spawn(s.(topicMap := s.topicMap[job.topic := s.nextChan],
             chans := s.chans[s.nextChan := [job]],
             nextChan := s.nextChan + 1,
             accepted := s.accepted + [job]),
          Starting(job.topic))
  }

  function CreateStep(s: State, job: Job): State {
    if job !in s.racing then s
    else
      var s := s.(racing := s.racing - multiset{job});
      if job.topic in s.topicMap then Enqueue(s, job)
      else if s.stopped then s
      else Open(s, job)
  }

  function CleanupStep(s: State, id: nat, t: Topic): State {
    var s := Exit(s, id);
    if t !in s.topicMap then s
    else if Chan(s, s.topicMap[t]) == [] then s.(topicMap := s.topicMap - {t})
    else if s.stopped then s
    else Spawn(s, Starting(t))
  }

  /** Where the next critical section of a handler's loop takes it. */
  function Become(s: State, g: Goroutine): Goroutine
    requires InLoop(g)
  {
    match g
    case Starting(t) => if t in s.topicMap then Serving(t, s.topicMap[t]) else Leaving(t)
    case Serving(t, ch) => if Chan(s, ch) == [] then Drained(t) else Holding(t, ch, Chan(s, ch)[0])
    case Holding(t, ch, job) =>
      if s.stopped then Leaving(t) else if job.topic != t then Serving(t, ch) else Executing(t, ch, job)
    case Executing(t, ch, _) => Serving(t, ch)
  }

  predicate InLoop(g: Goroutine) { g.Starting? || g.Serving? || g.Holding? || g.Executing? }

  function HandlerStep(s: State, id: nat, g: Goroutine): State
    requires InLoop(g)
  {
    s.(threads := s.threads[id := Become(s, g)],
       chans := if g.Serving? && Chan(s, g.ch) != [] then s.chans[g.ch := Chan(s, g.ch)[1..]] else s.chans,
       executed := if g.Executing? then s.executed + [g.job] else s.executed,
       dropped := if g.Holding? && (s.stopped || g.job.topic != g.topic) then s.dropped + [g.job] else s.dropped,
       lookupFailed := s.lookupFailed || (g.Starting? && g.topic !in s.topicMap),
       nilManagerUsed := s.nilManagerUsed || (g.Executing? && !s.manager))
  }

  function RetireStep(s: State, id: nat, t: Topic): State {
    if s.stopped then Move(s, id, Leaving(t)) else Spawn(Move(s, id, Leaving(t)), Cleaning(t))
  }

  /** The next critical section of goroutine `id`. */
  function AdvanceStep(s: State, id: nat): State
    requires id in s.threads
  {
    var g := s.threads[id];
    if InLoop(g) then HandlerStep(s, id, g)
    else if g.Drained? then RetireStep(s, id, g.topic)
    else if g.Cleaning? then CleanupStep(s, id, g.topic)
    else Exit(s, id)
  }

  function Step(s: State, a: Action): State {
    match a
    case Send(job) => SendStep(s, job)
    case Create(job) => CreateStep(s, job)
    case Advance(id) => if id in s.threads then AdvanceStep(s, id) else s
    case SetStopped => s.(stopped := true)
    case ReleaseManager => if s.stopped && s.waitCount == 0 then s.(manager := false) else s
  }

  // -------------------------------------------------------------------------
  // The invariant

  /** A goroutine that may still touch its topic's channel or map entry. */
  predicate Serves(g: Goroutine) { !g.Leaving? }

  function Hand(g: Goroutine): seq<Job> {
    if g.Holding? || g.Executing? then [g.job] else []
  }

  /** The jobs of one topic, in order. */
  function Project(jobs: seq<Job>, t: Topic): seq<Job> {
    if jobs == [] then []
    else
      var last := jobs[|jobs| - 1];
      Project(jobs[..|jobs| - 1], t) + if last.topic == t then [last] else []
  }

  function Queue(s: State, t: Topic): seq<Job> {
    if t in s.topicMap then Chan(s, s.topicMap[t]) else []
  }

  function InHand(threads: map<nat, Goroutine>, own: map<Topic, nat>, t: Topic): seq<Job> {
    if t in own && own[t] in threads then Hand(threads[own[t]]) else []
  }

  ghost predicate Channels(s: State) {
    && (forall t :: t in s.topicMap ==> s.topicMap[t] < s.nextChan)
    && (forall t, u :: t in s.topicMap && u in s.topicMap && t != u ==> s.topicMap[t] != s.topicMap[u])
    && (forall t, j :: j in Queue(s, t) ==> j.topic == t)
    && (forall c :: c in s.chans ==> c < s.nextChan && |s.chans[c]| <= MAX_QUEUED_JOBS)
  }

  /** `own` names the one goroutine that serves each topic. */
  ghost predicate Owners(threads: map<nat, Goroutine>, nextThread: nat, own: map<Topic, nat>) {
    && (forall i :: i in threads ==> i < nextThread)
    && (forall i :: i in threads && Serves(threads[i]) ==>
          threads[i].topic in own && own[threads[i].topic] == i)
    && (forall t :: t in own ==>
          own[t] in threads && Serves(threads[own[t]]) && threads[own[t]].topic == t)
  }

  ghost predicate Served(topicMap: map<Topic, nat>, stopped: bool, own: map<Topic, nat>) {
    && (forall t :: t in own ==> t in topicMap)
    && (!stopped ==> forall t :: t in topicMap ==> t in own)
  }

  /** A handler works on the channel that the map holds for its topic, and on jobs of its topic. */
  predicate BoundAt(g: Goroutine, topicMap: map<Topic, nat>) {
    && (g.Serving? || g.Holding? || g.Executing? ==> g.topic in topicMap && topicMap[g.topic] == g.ch)
    && (g.Holding? || g.Executing? ==> g.job.topic == g.topic)
  }

  ghost predicate Bound(threads: map<nat, Goroutine>, topicMap: map<Topic, nat>) {
    forall i :: i in threads ==> BoundAt(threads[i], topicMap)
  }

  ghost predicate Shutdown(s: State) {
    && s.waitCount == |s.threads|
    && (!s.manager ==> s.stopped && s.threads == map[])
    && !s.lookupFailed
    && !s.nilManagerUsed
    && (s.dropped != [] ==> s.stopped)
  }

  /** What went in is what was done, thrown away, in hand or waiting, in that order. */
  predicate Ledger(accepted: seq<Job>, executed: seq<Job>, dropped: seq<Job>, hand: seq<Job>, queue: seq<Job>) {
    accepted == executed + dropped + hand + queue
  }

  /** The ledger of a topic, of which at most one job is thrown away, and none while it is served. */
  predicate Account(accepted: seq<Job>, executed: seq<Job>, dropped: seq<Job>, hand: seq<Job>, queue: seq<Job>,
                    served: bool) {
    Ledger(accepted, executed, dropped, hand, queue) && (served ==> dropped == []) && |dropped| <= 1
  }

  /** Jobs of topic `t` are neither lost, duplicated nor reordered. */
  ghost predicate Balanced(s: State, own: map<Topic, nat>, t: Topic) {
    Account(Project(s.accepted, t), Project(s.executed, t), Project(s.dropped, t),
            InHand(s.threads, own, t), Queue(s, t), t in own)
  }

  ghost predicate Accounts(s: State, own: map<Topic, nat>) {
    forall t :: Balanced(s, own, t)
  }

  ghost predicate Inv(s: State, own: map<Topic, nat>) {
    && Channels(s)
    && Owners(s.threads, s.nextThread, own)
    && Served(s.topicMap, s.stopped, own)
    && Bound(s.threads, s.topicMap)
    && Shutdown(s)
    && Accounts(s, own)
  }

  lemma LedgerArrival(a: seq<Job>, e: seq<Job>, d: seq<Job>, h: seq<Job>, q: seq<Job>, x: seq<Job>)
    requires Ledger(a, e, d, h, q)
    ensures Ledger(a + x, e, d, h, q + x)
  {
    assert e + d + h + (q + x) == e + d + h + q + x;
  }

  lemma LedgerMoves(a: seq<Job>, e: seq<Job>, h: seq<Job>, q: seq<Job>)
    requires Ledger(a, e, [], h, q)
    ensures Ledger(a, e + h, [], [], q)
    ensures Ledger(a, e, h, [], q)
    ensures q != [] && h == [] ==> Ledger(a, e, [], [q[0]], q[1..])
  {
    assert e + [] == e && e + h + [] == e + h;
    if q != [] && h == [] { assert q == [q[0]] + q[1..]; }
  }

  lemma ProjectAppend(jobs: seq<Job>, job: Job, t: Topic)
    ensures Project(jobs + [job], t) == Project(jobs, t) + if job.topic == t then [job] else []
  {
    assert (jobs + [job])[..|jobs|] == jobs;
  }

  // -------------------------------------------------------------------------
  // Each critical section keeps the invariant

  lemma EnqueueQueues(s: State, job: Job, t: Topic)
    requires Channels(s) && job.topic in s.topicMap && Enqueue(s, job) != s
    ensures Queue(Enqueue(s, job), t) == Queue(s, t) + if job.topic == t then [job] else []
  {
  }

  lemma EnqueueKeepsChannels(s: State, job: Job)
    requires Channels(s) && job.topic in s.topicMap
    ensures Channels(Enqueue(s, job))
  {
    var s' := Enqueue(s, job);
    if s' != s {
      forall t, j | j in Queue(s', t) ensures j.topic == t { EnqueueQueues(s, job, t); }
    }
  }

  /** A job arrives at the end of its topic's queue; nothing else that the accounts read changes. */
  lemma ArrivalKeepsBalance(s: State, own: map<Topic, nat>, r: State, own': map<Topic, nat>, job: Job, t: Topic)
    requires Balanced(s, own, t) && (t in own' ==> t in own || s.dropped == [])
    requires r.accepted == s.accepted + [job] && r.executed == s.executed && r.dropped == s.dropped
    requires Queue(r, t) == Queue(s, t) + if job.topic == t then [job] else []
    requires InHand(r.threads, own', t) == InHand(s.threads, own, t)
    ensures Balanced(r, own', t)
  {
    ProjectAppend(s.accepted, job, t);
    LedgerArrival(Project(s.accepted, t), Project(s.executed, t), Project(s.dropped, t),
                  InHand(s.threads, own, t), Queue(s, t), if job.topic == t then [job] else []);
  }

  lemma EnqueueKeepsAccounts(s: State, own: map<Topic, nat>, job: Job)
    requires Channels(s) && Accounts(s, own) && job.topic in s.topicMap
    ensures Accounts(Enqueue(s, job), own)
  {
    var s' := Enqueue(s, job);
    if s' != s {
      forall t ensures Balanced(s', own, t) {
        EnqueueQueues(s, job, t);
        ArrivalKeepsBalance(s, own, s', own, job, t);
      }
    }
  }

  lemma EnqueueKeeps(s: State, own: map<Topic, nat>, job: Job)
    requires Inv(s, own) && job.topic in s.topicMap
    ensures Inv(Enqueue(s, job), own)
  {
    EnqueueKeepsChannels(s, job);
    EnqueueKeepsAccounts(s, own, job);
  }

  /** Parts of the state that the accounts do not read may change freely. */
  lemma SameAccounts(s: State, r: State, own: map<Topic, nat>)
    requires Accounts(s, own)
    requires r.accepted == s.accepted && r.executed == s.executed && r.dropped == s.dropped
    requires r.threads == s.threads && r.topicMap == s.topicMap && r.chans == s.chans
    ensures Accounts(r, own)
  {
    forall t ensures Balanced(r, own, t) { assert Balanced(s, own, t); }
  }

  lemma SameChannels(s: State, r: State)
    requires Channels(s)
    requires r.topicMap == s.topicMap && r.chans == s.chans && r.nextChan == s.nextChan
    ensures Channels(r)
  {
    forall t ensures Queue(r, t) == Queue(s, t) { }
  }

  lemma SpawnKeepsOwners(threads: map<nat, Goroutine>, next: nat, own: map<Topic, nat>, g: Goroutine)
    requires Owners(threads, next, own) && Serves(g) && g.topic !in own
    ensures Owners(threads[next := g], next + 1, own[g.topic := next])
    ensures |threads[next := g]| == |threads| + 1
  {
    assert threads[next := g].Keys == threads.Keys + {next};
    assert |threads[next := g].Keys| == |threads[next := g]|;
  }

  lemma MoveKeepsOwners(threads: map<nat, Goroutine>, next: nat, own: map<Topic, nat>, id: nat, g: Goroutine)
    requires Owners(threads, next, own) && id in threads
    requires Serves(threads[id]) && Serves(g) && g.topic == threads[id].topic
    ensures Owners(threads[id := g], next, own)
    ensures |threads[id := g]| == |threads|
  {
    assert threads[id := g].Keys == threads.Keys;
    assert |threads[id := g].Keys| == |threads[id := g]|;
  }

  /** The server of a topic gives up that role. */
  lemma LeaveKeepsOwners(threads: map<nat, Goroutine>, next: nat, own: map<Topic, nat>, id: nat, g: Goroutine)
    requires Owners(threads, next, own) && id in threads
    requires Serves(threads[id]) && g == Leaving(threads[id].topic)
    ensures Owners(threads[id := g], next, own - {g.topic})
    ensures |threads[id := g]| == |threads|
  {
    assert threads[id := g].Keys == threads.Keys;
    assert |threads[id := g].Keys| == |threads[id := g]|;
  }

  lemma ExitKeepsOwners(threads: map<nat, Goroutine>, next: nat, own: map<Topic, nat>, id: nat)
    requires Owners(threads, next, own) && id in threads && !Serves(threads[id])
    ensures Owners(threads - {id}, next, own)
    ensures |threads - {id}| == |threads| - 1
  {
    assert (threads - {id}).Keys == threads.Keys - {id};
    assert |(threads - {id}).Keys| == |threads - {id}|;
  }

  /** Only the topic of a moved goroutine can see other jobs in hand. */
  lemma HandAfter(threads: map<nat, Goroutine>, next: nat, own: map<Topic, nat>, id: nat, g: Goroutine, t: Topic)
    requires Owners(threads, next, own) && id in threads && Serves(threads[id])
    requires g.topic == threads[id].topic
    ensures g.topic in own && InHand(threads, own, g.topic) == Hand(threads[id])
    ensures InHand(threads[id := g], own, g.topic) == Hand(g)
    ensures InHand(threads[id := g], own - {g.topic}, g.topic) == []
    ensures t != g.topic ==> InHand(threads[id := g], own, t) == InHand(threads, own, t)
    ensures t != g.topic ==> InHand(threads[id := g], own - {g.topic}, t) == InHand(threads, own, t)
  {
  }

  lemma OpenKeepsChannels(s: State, job: Job)
    requires Channels(s) && job.topic !in s.topicMap
    ensures Channels(Open(s, job))
    ensures forall t :: Queue(Open(s, job), t) == Queue(s, t) + if job.topic == t then [job] else []
  {
    var s' := Open(s, job);
    forall t ensures Queue(s', t) == Queue(s, t) + if job.topic == t then [job] else [] { }
  }

  lemma OpenKeepsAccounts(s: State, own: map<Topic, nat>, job: Job)
    requires Channels(s) && Accounts(s, own) && Owners(s.threads, s.nextThread, own)
    requires job.topic !in s.topicMap && job.topic !in own && !s.stopped && s.dropped == []
    ensures Accounts(Open(s, job), own[job.topic := s.nextThread])
  {
    var s' := Open(s, job);
    var own' := own[job.topic := s.nextThread];
    OpenKeepsChannels(s, job);
    forall t ensures Balanced(s', own', t) {
      ArrivalKeepsBalance(s, own, s', own', job, t);
    }
  }

  lemma OpenKeeps(s: State, own: map<Topic, nat>, job: Job)
    requires Inv(s, own) && job.topic !in s.topicMap && !s.stopped
    ensures Inv(Open(s, job), own[job.topic := s.nextThread])
  {
    OpenKeepsChannels(s, job);
    SpawnKeepsOwners(s.threads, s.nextThread, own, Starting(job.topic));
    OpenKeepsAccounts(s, own, job);
    var s' := Open(s, job);
    assert Bound(s'.threads, s'.topicMap);
  }

  lemma CreateKeeps(s: State, own: map<Topic, nat>, job: Job) returns (own': map<Topic, nat>)
    requires Inv(s, own)
    ensures Inv(CreateStep(s, job), own')
  {
    own' := own;
    if job in s.racing {
      var r := s.(racing := s.racing - multiset{job});
      SameAccounts(s, r, own);
      SameChannels(s, r);
      if job.topic in r.topicMap {
        EnqueueKeeps(r, own, job);
      } else if !r.stopped {
        OpenKeeps(r, own, job);
        own' := own[job.topic := r.nextThread];
      }
    }
  }

  lemma FrameKeepsBalance(s: State, own: map<Topic, nat>, r: State, own': map<Topic, nat>, t: Topic)
    requires Balanced(s, own, t) && (t in own' ==> t in own)
    requires r.accepted == s.accepted && r.executed == s.executed && r.dropped == s.dropped
    requires Queue(r, t) == Queue(s, t) && InHand(r.threads, own', t) == InHand(s.threads, own, t)
    ensures Balanced(r, own', t)
  {
  }

  /** The server of a topic moves without touching its jobs. */
  lemma MoveKeeps(s: State, own: map<Topic, nat>, id: nat, g: Goroutine)
    requires Inv(s, own) && id in s.threads
    requires Serves(s.threads[id]) && Serves(g) && g.topic == s.threads[id].topic
    requires Hand(g) == Hand(s.threads[id]) && BoundAt(g, s.topicMap)
    ensures Inv(Move(s, id, g), own)
  {
    var r := Move(s, id, g);
    MoveKeepsOwners(s.threads, s.nextThread, own, id, g);
    SameChannels(s, r);
    forall t ensures Balanced(r, own, t) {
      HandAfter(s.threads, s.nextThread, own, id, g, t);
      FrameKeepsBalance(s, own, r, own, t);
    }
    assert Bound(r.threads, r.topicMap);
  }

  /** The handler takes the job at the head of its channel. */
  lemma TakeKeeps(s: State, own: map<Topic, nat>, id: nat)
    requires Inv(s, own) && id in s.threads && s.threads[id].Serving? && Chan(s, s.threads[id].ch) != []
    ensures Inv(HandlerStep(s, id, s.threads[id]), own)
  {
    var r := HandlerStep(s, id, s.threads[id]);
    var g := s.threads[id];
    assert BoundAt(g, s.topicMap);
    assert Queue(s, g.topic) == Chan(s, g.ch);
    MoveKeepsOwners(s.threads, s.nextThread, own, id, r.threads[id]);
    TakeKeepsChannels(s, own, id);
    forall t ensures Balanced(r, own, t) { TakeKeepsBalance(s, own, id, t); }
    assert Queue(s, g.topic)[0] in Queue(s, g.topic);
    assert Bound(r.threads, r.topicMap);
  }

  lemma TakeQueues(s: State, id: nat, t: Topic)
    requires Channels(s) && id in s.threads && s.threads[id].Serving? && Chan(s, s.threads[id].ch) != []
    requires BoundAt(s.threads[id], s.topicMap)
    ensures Queue(HandlerStep(s, id, s.threads[id]), t) ==
            if t == s.threads[id].topic then Queue(s, t)[1..] else Queue(s, t)
  {
  }

  lemma TakeKeepsChannels(s: State, own: map<Topic, nat>, id: nat)
    requires Channels(s) && id in s.threads && s.threads[id].Serving? && Chan(s, s.threads[id].ch) != []
    requires BoundAt(s.threads[id], s.topicMap)
    ensures Channels(HandlerStep(s, id, s.threads[id]))
  {
    var r := HandlerStep(s, id, s.threads[id]);
    forall t, j | j in Queue(r, t) ensures j.topic == t {
      TakeQueues(s, id, t);
      assert j in Queue(s, t);
    }
  }

  lemma TakeAccount(a: seq<Job>, e: seq<Job>, d: seq<Job>, q: seq<Job>)
    requires Account(a, e, d, [], q, true) && q != []
    ensures Account(a, e, d, [q[0]], q[1..], true)
  {
    LedgerMoves(a, e, [], q);
  }

  lemma TakeKeepsBalance(s: State, own: map<Topic, nat>, id: nat, t: Topic)
    requires Balanced(s, own, t) && Owners(s.threads, s.nextThread, own) && Channels(s)
    requires id in s.threads && s.threads[id].Serving? && BoundAt(s.threads[id], s.topicMap)
    requires Chan(s, s.threads[id].ch) != []
    ensures Balanced(HandlerStep(s, id, s.threads[id]), own, t)
  {
    var g := s.threads[id];
    var r := HandlerStep(s, id, g);
    TakeQueues(s, id, t);
    HandAfter(s.threads, s.nextThread, own, id, r.threads[id], t);
    if t == g.topic {
      assert Queue(s, t) == Chan(s, g.ch);
      TakeAccount(Project(s.accepted, t), Project(s.executed, t), Project(s.dropped, t), Queue(s, t));
    }
  }

  /** The handler sees the stopped flag after taking a job: the job is thrown away. */
  lemma DropKeeps(s: State, own: map<Topic, nat>, id: nat)
    requires Inv(s, own) && id in s.threads && s.threads[id].Holding? && s.stopped
    ensures Inv(HandlerStep(s, id, s.threads[id]), own - {s.threads[id].topic})
  {
    var r := HandlerStep(s, id, s.threads[id]);
    var g := s.threads[id];
    var own' := own - {g.topic};
    LeaveKeepsOwners(s.threads, s.nextThread, own, id, Leaving(g.topic));
    SameChannels(s, r);
    forall t ensures Balanced(r, own', t) {
      assert BoundAt(g, s.topicMap);
      DropKeepsBalance(s, own, id, t);
    }
    assert Bound(r.threads, r.topicMap);
  }

  lemma DropAccount(a: seq<Job>, e: seq<Job>, d: seq<Job>, job: Job, q: seq<Job>)
    requires Account(a, e, d, [job], q, true)
    ensures Account(a, e, d + [job], [], q, false)
  {
    LedgerMoves(a, e, [job], q);
  }

  lemma DropKeepsBalance(s: State, own: map<Topic, nat>, id: nat, t: Topic)
    requires Balanced(s, own, t) && Owners(s.threads, s.nextThread, own) && s.stopped
    requires id in s.threads && s.threads[id].Holding? && BoundAt(s.threads[id], s.topicMap)
    ensures Balanced(HandlerStep(s, id, s.threads[id]), own - {s.threads[id].topic}, t)
  {
    var g := s.threads[id];
    var r := HandlerStep(s, id, g);
    SameQueues(s, r, t);
    assert r.threads == s.threads[id := Leaving(g.topic)];
    ProjectAppend(s.dropped, g.job, t);
    DropHand(s.threads, s.nextThread, own, id, t);
    if t == g.topic {
      DropAccount(Project(s.accepted, t), Project(s.executed, t), Project(s.dropped, t), g.job, Queue(s, t));
    }
  }

  lemma SameQueues(s: State, r: State, t: Topic)
    requires r.chans == s.chans && r.topicMap == s.topicMap
    ensures Queue(r, t) == Queue(s, t)
  {
  }

  /** What is in hand for a topic when a handler throws its job away and leaves. */
  lemma DropHand(threads: map<nat, Goroutine>, next: nat, own: map<Topic, nat>, id: nat, t: Topic)
    requires Owners(threads, next, own) && id in threads && threads[id].Holding?
    ensures threads[id].topic in own && InHand(threads, own, threads[id].topic) == [threads[id].job]
    ensures InHand(threads[id := Leaving(threads[id].topic)], own - {threads[id].topic}, t) ==
            if t == threads[id].topic then [] else InHand(threads, own, t)
  {
    HandAfter(threads, next, own, id, Leaving(threads[id].topic), t);
  }

  lemma FinishKeeps(s: State, own: map<Topic, nat>, id: nat)
    requires Inv(s, own) && id in s.threads && s.threads[id].Executing?
    ensures Inv(HandlerStep(s, id, s.threads[id]), own)
  {
    var r := HandlerStep(s, id, s.threads[id]);
    var g := s.threads[id];
    MoveKeepsOwners(s.threads, s.nextThread, own, id, r.threads[id]);
    SameChannels(s, r);
    forall t ensures Balanced(r, own, t) {
      assert BoundAt(g, s.topicMap);
      FinishKeepsBalance(s, own, id, t);
    }
    assert s.manager;
    assert Bound(r.threads, r.topicMap);
  }

  lemma FinishAccount(a: seq<Job>, e: seq<Job>, d: seq<Job>, job: Job, q: seq<Job>)
    requires Account(a, e, d, [job], q, true)
    ensures Account(a, e + [job], d, [], q, true)
  {
    LedgerMoves(a, e, [job], q);
  }

  lemma FinishKeepsBalance(s: State, own: map<Topic, nat>, id: nat, t: Topic)
    requires Balanced(s, own, t) && Owners(s.threads, s.nextThread, own)
    requires id in s.threads && s.threads[id].Executing? && BoundAt(s.threads[id], s.topicMap)
    ensures Balanced(HandlerStep(s, id, s.threads[id]), own, t)
  {
    var g := s.threads[id];
    var r := HandlerStep(s, id, g);
    SameQueues(s, r, t);
    ProjectAppend(s.executed, g.job, t);
    HandAfter(s.threads, s.nextThread, own, id, r.threads[id], t);
    if t == g.topic {
      FinishAccount(Project(s.accepted, t), Project(s.executed, t), Project(s.dropped, t), g.job, Queue(s, t));
    }
  }

  /** The goroutines that remain when server `id`, with no job in hand, leaves or ends. */
  predicate Resigned(threads: map<nat, Goroutine>, id: nat, rest: map<nat, Goroutine>)
    requires id in threads
  {
    && Serves(threads[id])
    && Hand(threads[id]) == []
    && (rest == threads[id := Leaving(threads[id].topic)] || rest == threads - {id})
  }

  lemma ResignKeepsOwners(threads: map<nat, Goroutine>, next: nat, own: map<Topic, nat>, id: nat,
                          rest: map<nat, Goroutine>)
    requires Owners(threads, next, own) && id in threads && Resigned(threads, id, rest)
    ensures Owners(rest, next, own - {threads[id].topic})
    ensures |rest| == if id in rest then |threads| else |threads| - 1
  {
    if id in rest {
      LeaveKeepsOwners(threads, next, own, id, Leaving(threads[id].topic));
    } else {
      assert (threads - {id}).Keys == threads.Keys - {id};
      assert |(threads - {id}).Keys| == |threads - {id}|;
    }
  }

  lemma ResignHand(threads: map<nat, Goroutine>, next: nat, own: map<Topic, nat>, id: nat,
                   rest: map<nat, Goroutine>, u: Topic)
    requires Owners(threads, next, own) && id in threads && Resigned(threads, id, rest)
    ensures InHand(rest, own - {threads[id].topic}, u) == InHand(threads, own, u)
  {
    if u in own && own[u] != id { assert u != threads[id].topic; }
  }

  lemma ResignKeepsBound(threads: map<nat, Goroutine>, topicMap: map<Topic, nat>, id: nat, rest: map<nat, Goroutine>)
    requires Bound(threads, topicMap) && id in threads && Resigned(threads, id, rest)
    ensures Bound(rest, topicMap)
  {
    forall i | i in rest ensures BoundAt(rest[i], topicMap) { assert BoundAt(threads[i], topicMap); }
  }

  /** After the stop a server without a job in hand gives its topic up. */
  lemma ResignKeeps(s: State, own: map<Topic, nat>, id: nat, r: State)
    requires Inv(s, own) && id in s.threads && Resigned(s.threads, id, r.threads) && s.stopped
    requires r == s.(threads := r.threads, waitCount := r.waitCount)
    requires r.waitCount == if id in r.threads then s.waitCount else s.waitCount - 1
    ensures Inv(r, own - {s.threads[id].topic})
  {
    var t := s.threads[id].topic;
    ResignKeepsOwners(s.threads, s.nextThread, own, id, r.threads);
    ResignKeepsBound(s.threads, s.topicMap, id, r.threads);
    SameChannels(s, r);
    forall u ensures Balanced(r, own - {t}, u) {
      ResignHand(s.threads, s.nextThread, own, id, r.threads, u);
      FrameKeepsBalance(s, own, r, own - {t}, u);
    }
  }

  /** A server without a job in hand passes its topic to a new goroutine. */
  lemma HandOverKeeps(s: State, own: map<Topic, nat>, id: nat, rest: map<nat, Goroutine>, g: Goroutine, r: State)
    requires Inv(s, own) && id in s.threads && Resigned(s.threads, id, rest)
    requires g == Starting(s.threads[id].topic) || g == Cleaning(s.threads[id].topic)
    requires r == s.(threads := rest[s.nextThread := g], nextThread := s.nextThread + 1, waitCount := r.waitCount)
    requires r.waitCount == (if id in rest then s.waitCount else s.waitCount - 1) + 1
    ensures Inv(r, (own - {g.topic})[g.topic := s.nextThread])
  {
    var t := g.topic;
    var own' := (own - {t})[t := s.nextThread];
    ResignKeepsOwners(s.threads, s.nextThread, own, id, rest);
    SpawnKeepsOwners(rest, s.nextThread, own - {t}, g);
    ResignKeepsBound(s.threads, s.topicMap, id, rest);
    SpawnKeepsBound(rest, s.topicMap, s.nextThread, g);
    SameChannels(s, r);
    ServedAfterHandOver(s, own, t);
    HandOverKeepsAccounts(s, own, id, rest, g, r);
    HandOverKeepsShutdown(s, id, rest, g, r);
  }

  lemma HandOverKeepsShutdown(s: State, id: nat, rest: map<nat, Goroutine>, g: Goroutine, r: State)
    requires Shutdown(s) && id in s.threads && s.nextThread !in rest
    requires |rest| == if id in rest then |s.threads| else |s.threads| - 1
    requires r == s.(threads := rest[s.nextThread := g], nextThread := s.nextThread + 1, waitCount := r.waitCount)
    requires r.waitCount == (if id in rest then s.waitCount else s.waitCount - 1) + 1
    ensures Shutdown(r)
  {
    assert s.manager;
    assert |rest[s.nextThread := g]| == |rest| + 1;
  }

  lemma SpawnKeepsBound(threads: map<nat, Goroutine>, topicMap: map<Topic, nat>, next: nat, g: Goroutine)
    requires Bound(threads, topicMap) && (g.Starting? || g.Cleaning?)
    ensures Bound(threads[next := g], topicMap)
  {
  }

  lemma ServedAfterHandOver(s: State, own: map<Topic, nat>, t: Topic)
    requires Served(s.topicMap, s.stopped, own) && t in own
    ensures Served(s.topicMap, s.stopped, (own - {t})[t := s.nextThread])
  {
  }

  lemma HandOverKeepsAccounts(s: State, own: map<Topic, nat>, id: nat, rest: map<nat, Goroutine>, g: Goroutine,
                              r: State)
    requires Accounts(s, own) && Owners(s.threads, s.nextThread, own)
    requires id in s.threads && Resigned(s.threads, id, rest)
    requires g == Starting(s.threads[id].topic) || g == Cleaning(s.threads[id].topic)
    requires r == s.(threads := rest[s.nextThread := g], nextThread := s.nextThread + 1, waitCount := r.waitCount)
    ensures Accounts(r, (own - {g.topic})[g.topic := s.nextThread])
  {
    var t := g.topic;
    var own' := (own - {t})[t := s.nextThread];
    forall u ensures Balanced(r, own', u) {
      ResignHand(s.threads, s.nextThread, own, id, rest, u);
      assert InHand(r.threads, own', u) == InHand(rest, own - {t}, u);
      FrameKeepsBalance(s, own, r, own', u);
    }
  }

  /** The state without an empty channel and the goroutine that cleaned it up. */
  function Deleted(s: State, id: nat, t: Topic): State {
    s.(threads := s.threads - {id}, waitCount := s.waitCount - 1, topicMap := s.topicMap - {t})
  }

  lemma DeleteQueues(s: State, id: nat, t: Topic, u: Topic)
    requires Queue(s, t) == []
    ensures Queue(Deleted(s, id, t), u) == Queue(s, u)
  {
  }

  lemma DeleteKeepsChannels(s: State, id: nat, t: Topic)
    requires Channels(s) && Queue(s, t) == []
    ensures Channels(Deleted(s, id, t))
  {
    forall u, j | j in Queue(Deleted(s, id, t), u) ensures j.topic == u { DeleteQueues(s, id, t, u); }
  }

  lemma DeleteKeepsAccounts(s: State, own: map<Topic, nat>, id: nat)
    requires Accounts(s, own) && Owners(s.threads, s.nextThread, own) && id in s.threads && s.threads[id].Cleaning?
    requires Queue(s, s.threads[id].topic) == []
    ensures Accounts(Deleted(s, id, s.threads[id].topic), own - {s.threads[id].topic})
  {
    var t := s.threads[id].topic;
    var r := Deleted(s, id, t);
    forall u ensures Balanced(r, own - {t}, u) {
      DeleteQueues(s, id, t, u);
      ResignHand(s.threads, s.nextThread, own, id, r.threads, u);
      FrameKeepsBalance(s, own, r, own - {t}, u);
    }
  }

  /** The cleanup goroutine deletes the entry of an empty channel. */
  lemma DeleteKeeps(s: State, own: map<Topic, nat>, id: nat)
    requires Inv(s, own) && id in s.threads && s.threads[id].Cleaning?
    requires s.threads[id].topic in s.topicMap && Queue(s, s.threads[id].topic) == []
    ensures Inv(Deleted(s, id, s.threads[id].topic), own - {s.threads[id].topic})
  {
    var t := s.threads[id].topic;
    ResignKeepsOwners(s.threads, s.nextThread, own, id, s.threads - {id});
    DeleteKeepsChannels(s, id, t);
    DeleteKeepsAccounts(s, own, id);
    DeleteKeepsBound(s, own, id);
  }

  lemma DeleteKeepsBound(s: State, own: map<Topic, nat>, id: nat)
    requires Owners(s.threads, s.nextThread, own) && Bound(s.threads, s.topicMap)
    requires id in s.threads && s.threads[id].Cleaning?
    ensures Bound(s.threads - {id}, s.topicMap - {s.threads[id].topic})
  {
    var t := s.threads[id].topic;
    forall i | i in s.threads - {id} ensures BoundAt(s.threads[i], s.topicMap - {t}) {
      assert BoundAt(s.threads[i], s.topicMap);
      assert Serves(s.threads[i]) ==> s.threads[i].topic != t;
    }
  }

  lemma ExitKeeps(s: State, own: map<Topic, nat>, id: nat)
    requires Inv(s, own) && id in s.threads && s.threads[id].Leaving?
    ensures Inv(Exit(s, id), own)
  {
    var r := Exit(s, id);
    ExitKeepsOwners(s.threads, s.nextThread, own, id);
    SameChannels(s, r);
    forall t ensures Balanced(r, own, t) {
      FrameKeepsBalance(s, own, r, own, t);
    }
  }

  /** A handler in its loop that neither takes a job, drops one nor runs one just moves on. */
  lemma LoopMoves(s: State, id: nat)
    requires id in s.threads && !s.lookupFailed
    requires var g := s.threads[id];
             || (g.Starting? && g.topic in s.topicMap)
             || (g.Serving? && Chan(s, g.ch) == [])
             || (g.Holding? && !s.stopped && g.job.topic == g.topic)
    ensures HandlerStep(s, id, s.threads[id]) == Move(s, id, Become(s, s.threads[id]))
  {
  }

  lemma HandlerKeeps(s: State, own: map<Topic, nat>, id: nat) returns (own': map<Topic, nat>)
    requires Inv(s, own) && id in s.threads && InLoop(s.threads[id])
    ensures Inv(HandlerStep(s, id, s.threads[id]), own')
  {
    var g := s.threads[id];
    assert BoundAt(g, s.topicMap) && g.topic in own && g.topic in s.topicMap;
    own' := own;
    if g.Serving? && Chan(s, g.ch) != [] {
      TakeKeeps(s, own, id);
    } else if g.Holding? && s.stopped {
      DropKeeps(s, own, id);
      own' := own - {g.topic};
    } else if g.Executing? {
      FinishKeeps(s, own, id);
    } else {
      LoopMoves(s, id);
      MoveKeeps(s, own, id, Become(s, g));
    }
  }

  lemma RetireKeeps(s: State, own: map<Topic, nat>, id: nat) returns (own': map<Topic, nat>)
    requires Inv(s, own) && id in s.threads && s.threads[id].Drained?
    ensures Inv(RetireStep(s, id, s.threads[id].topic), own')
  {
    var t := s.threads[id].topic;
    var r := RetireStep(s, id, t);
    if s.stopped {
      ResignKeeps(s, own, id, r);
      own' := own - {t};
    } else {
      HandOverKeeps(s, own, id, s.threads[id := Leaving(t)], Cleaning(t), r);
      own' := (own - {t})[t := s.nextThread];
    }
  }

  lemma CleanupKeeps(s: State, own: map<Topic, nat>, id: nat) returns (own': map<Topic, nat>)
    requires Inv(s, own) && id in s.threads && s.threads[id].Cleaning?
    ensures Inv(CleanupStep(s, id, s.threads[id].topic), own')
  {
    var t := s.threads[id].topic;
    assert t in own && t in s.topicMap;
    if Queue(s, t) == [] {
      assert CleanupStep(s, id, t) == Deleted(s, id, t);
      DeleteKeeps(s, own, id);
      own' := own - {t};
    } else if s.stopped {
      ResignKeeps(s, own, id, CleanupStep(s, id, t));
      own' := own - {t};
    } else {
      HandOverKeeps(s, own, id, s.threads - {id}, Starting(t), CleanupStep(s, id, t));
      own' := (own - {t})[t := s.nextThread];
    }
  }

  lemma AdvanceKeeps(s: State, own: map<Topic, nat>, id: nat) returns (own': map<Topic, nat>)
    requires Inv(s, own) && id in s.threads
    ensures Inv(AdvanceStep(s, id), own')
  {
    var g := s.threads[id];
    if InLoop(g) {
      own' := HandlerKeeps(s, own, id);
    } else if g.Drained? {
      own' := RetireKeeps(s, own, id);
    } else if g.Cleaning? {
      own' := CleanupKeeps(s, own, id);
    } else {
      ExitKeeps(s, own, id);
      own' := own;
    }
  }

  lemma StepKeeps(s: State, own: map<Topic, nat>, a: Action) returns (own': map<Topic, nat>)
    requires Inv(s, own)
    ensures Inv(Step(s, a), own')
  {
    own' := own;
    match a {
      case Send(job) =>
        if job.topic in s.topicMap {
          EnqueueKeeps(s, own, job);
        } else {
          SameAccounts(s, Step(s, a), own);
          SameChannels(s, Step(s, a));
        }
      case Create(job) => own' := CreateKeeps(s, own, job);
      case Advance(id) => if id in s.threads { own' := AdvanceKeeps(s, own, id); }
      case _ =>
        SameAccounts(s, Step(s, a), own);
        SameChannels(s, Step(s, a));
    }
  }

  // -------------------------------------------------------------------------
  // What holds in every run

  function Run(actions: seq<Action>): State {
    if actions == [] then Initial
    else Step(Run(actions[..|actions| - 1]), actions[|actions| - 1])
  }

  lemma {:induction false} RunKeeps(actions: seq<Action>) returns (own: map<Topic, nat>)
    ensures Inv(Run(actions), own)
  {
    if actions == [] {
      own := map[];
    } else {
      own := RunKeeps(actions[..|actions| - 1]);
      own := StepKeeps(Run(actions[..|actions| - 1]), own, actions[|actions| - 1]);
    }
  }

  lemma RunExtends(front: seq<Action>, last: Action, all: seq<Action>)
    requires all == front + [last]
    ensures Run(all) == Step(Run(front), last)
  {
    assert all[..|all| - 1] == front && all[|all| - 1] == last;
  }

  lemma FrontOfConcat(actions: seq<Action>, more: seq<Action>)
    requires more != []
    ensures actions + more == (actions + more[..|more| - 1]) + [more[|more| - 1]]
  {
  }

  lemma RunLast(actions: seq<Action>, more: seq<Action>)
    requires more != []
    ensures Run(actions + more) == Step(Run(actions + more[..|more| - 1]), more[|more| - 1])
  {
    FrontOfConcat(actions, more);
    RunExtends(actions + more[..|more| - 1], more[|more| - 1], actions + more);
  }

  /** Two goroutines never serve the same topic, before or after the stop. */
  lemma {:induction false} OneServerPerTopic(actions: seq<Action>, i: nat, j: nat)
    requires var s := Run(actions);
             i in s.threads && j in s.threads && Serves(s.threads[i]) && Serves(s.threads[j]) &&
             s.threads[i].topic == s.threads[j].topic
    ensures i == j
  {
    var own := RunKeeps(actions);
  }

  /** Until the stop a topic has a map entry exactly when a goroutine serves it. */
  lemma {:induction false} EntryIffServed(actions: seq<Action>, t: Topic)
    requires !Run(actions).stopped
    ensures var s := Run(actions);
            t in s.topicMap <==> exists i :: i in s.threads && Serves(s.threads[i]) && s.threads[i].topic == t
  {
    var own := RunKeeps(actions);
    var s := Run(actions);
    if t in s.topicMap {
      assert t in own;
      assert own[t] in s.threads;
    }
  }

  /** A handler always finds its channel, and keeps working on the channel the map holds. */
  lemma {:induction false} HandlerFindsItsChannel(actions: seq<Action>, i: nat)
    requires i in Run(actions).threads
    ensures var s := Run(actions);
            && !s.lookupFailed && BoundAt(s.threads[i], s.topicMap)
            && (Serves(s.threads[i]) ==> s.threads[i].topic in s.topicMap)
  {
    var own := RunKeeps(actions);
  }

  /** Per topic and until the stop: accepted jobs are the executed ones, then the one in hand, then the queue. */
  lemma {:induction false} JobsRunInOrder(actions: seq<Action>, t: Topic, i: nat)
    requires !Run(actions).stopped
    ensures var s := Run(actions);
            i in s.threads && Serves(s.threads[i]) && s.threads[i].topic == t ==>
              Project(s.accepted, t) == Project(s.executed, t) + Hand(s.threads[i]) + Queue(s, t)
    ensures var s := Run(actions);
            t !in s.topicMap ==> Project(s.accepted, t) == Project(s.executed, t)
  {
    var own := RunKeeps(actions);
    var s := Run(actions);
    assert Balanced(s, own, t);
    assert s.dropped == [];
    assert Project(s.executed, t) + [] == Project(s.executed, t);
  }

  /** Per topic and in every run, across the stop as well: the accepted jobs are the executed ones, then the one that a
      stop made its handler drop, then the one in hand, then the queue. Nothing else becomes of a job. */
  lemma {:induction false} AcceptedIsAccountedFor(actions: seq<Action>, t: Topic, i: nat)
    ensures var s := Run(actions);
            i in s.threads && Serves(s.threads[i]) && s.threads[i].topic == t ==>
              && Project(s.accepted, t) == Project(s.executed, t) + Hand(s.threads[i]) + Queue(s, t)
              && Project(s.dropped, t) == []
    ensures var s := Run(actions);
            (forall k :: k in s.threads && Serves(s.threads[k]) ==> s.threads[k].topic != t) ==>
              Project(s.accepted, t) == Project(s.executed, t) + Project(s.dropped, t) + Queue(s, t)
    ensures |Project(Run(actions).dropped, t)| <= 1
  {
    var own := RunKeeps(actions);
    var s := Run(actions);
    assert Balanced(s, own, t);
    assert Project(s.executed, t) + [] == Project(s.executed, t);
    assert Project(s.executed, t) + Project(s.dropped, t) + [] == Project(s.executed, t) + Project(s.dropped, t);
  }

  /** Even across the stop: per topic the executed jobs are the oldest accepted ones,
      and a handler throws at most one job away, only after a stop. */
  lemma {:induction false} ExecutedIsPrefix(actions: seq<Action>, t: Topic)
    ensures Project(Run(actions).executed, t) <= Project(Run(actions).accepted, t)
    ensures |Project(Run(actions).dropped, t)| <= 1
    ensures Run(actions).dropped != [] ==> Run(actions).stopped
  {
    var own := RunKeeps(actions);
    assert Balanced(Run(actions), own, t);
  }

  /** A topic that has a queue takes a job, at the end of the queue, exactly when fewer than 1000 jobs wait in it; in no
      run do more than 1000. */
  lemma {:induction false} TakenUnlessFull(actions: seq<Action>, job: Job)
    requires job.topic in Run(actions).topicMap
    ensures var s := Run(actions); var r := Step(s, Send(job));
            && |Queue(s, job.topic)| <= 1000
            && (r.accepted == s.accepted + [job] <==> |Queue(s, job.topic)| < 1000)
            && Queue(r, job.topic) == Queue(s, job.topic) + (if |Queue(s, job.topic)| < 1000 then [job] else [])
  {
    var own := RunKeeps(actions);
    assert [job] != [];
  }

  /** The wait group counts the live goroutines, and nobody uses a released pipeline manager. */
  lemma {:induction false} ShutdownIsSafe(actions: seq<Action>)
    ensures Run(actions).waitCount == |Run(actions).threads|
    ensures !Run(actions).manager ==> Run(actions).threads == map[]
    ensures !Run(actions).nilManagerUsed
    ensures forall i :: i in Run(actions).threads && Run(actions).threads[i].Executing? ==> Run(actions).manager
  {
    var own := RunKeeps(actions);
  }

  /** Nothing new: fewer goroutines and fewer queues, and still stopped. */
  predicate Shrinks(s: State, r: State) {
    r.stopped && r.threads.Keys <= s.threads.Keys && r.topicMap.Keys <= s.topicMap.Keys
  }

  lemma StoppedCleanup(s: State, id: nat, t: Topic)
    requires s.stopped
    ensures Shrinks(s, CleanupStep(s, id, t)) && Shrinks(s, Exit(s, id))
  {
  }

  lemma StoppedAdvance(s: State, id: nat)
    requires s.stopped && id in s.threads
    ensures Shrinks(s, AdvanceStep(s, id))
  {
    var g := s.threads[id];
    if InLoop(g) {
      assert Shrinks(s, HandlerStep(s, id, g));
    } else if g.Drained? {
      assert Shrinks(s, Move(s, id, Leaving(g.topic)));
    } else {
      StoppedCleanup(s, id, g.topic);
    }
  }

  lemma StoppedCreate(s: State, job: Job)
    requires s.stopped
    ensures Shrinks(s, SendStep(s, job)) && Shrinks(s, CreateStep(s, job))
  {
  }

  lemma StoppedStep(s: State, a: Action)
    requires s.stopped
    ensures Shrinks(s, Step(s, a))
  {
    match a {
      case Advance(id) => if id in s.threads { StoppedAdvance(s, id); }
      case Send(job) => StoppedCreate(s, job);
      case Create(job) => StoppedCreate(s, job);
      case _ =>
    }
  }

  /** Once the stopped flag is set no goroutine and no queue is ever started again. */
  lemma {:induction false} NothingStartsAfterStop(actions: seq<Action>, more: seq<Action>)
    requires Run(actions).stopped
    ensures Run(actions + more).stopped
    ensures Run(actions + more).threads.Keys <= Run(actions).threads.Keys
    ensures Run(actions + more).topicMap.Keys <= Run(actions).topicMap.Keys
  {
    if more == [] {
      assert actions + more == actions;
    } else {
      RunLast(actions, more);
      NothingStartsAfterStop(actions, more[..|more| - 1]);
      StoppedStep(Run(actions + more[..|more| - 1]), more[|more| - 1]);
    }
  }

  lemma StoppedAndEmptyStep(s: State, a: Action)
    requires s.stopped && s.threads == map[]
    ensures Step(s, a).stopped && Step(s, a).threads == map[] && Step(s, a).executed == s.executed
  {
    match a {
      case Advance(_) =>
      case Send(_) =>
      case Create(_) =>
      case _ =>
    }
  }

  /** Once stopped and left by all goroutines, no continuation executes anything: whoever waits for the reply to a job
      that was dropped, left in a queue or never queued waits forever. */
  lemma {:induction false} NothingRunsAfterStop(actions: seq<Action>, more: seq<Action>)
    requires Run(actions).stopped && Run(actions).threads == map[]
    ensures Run(actions + more).stopped && Run(actions + more).threads == map[]
    ensures Run(actions + more).executed == Run(actions).executed
  {
    if more == [] {
      assert actions + more == actions;
    } else {
      RunLast(actions, more);
      NothingRunsAfterStop(actions, more[..|more| - 1]);
      StoppedAndEmptyStep(Run(actions + more[..|more| - 1]), more[|more| - 1]);
    }
  }

  // -------------------------------------------------------------------------
  // What a stop loses

  /** No goroutine is inside the pipeline manager with a job of the topic. */
  ghost predicate NoneExecutes(threads: map<nat, Goroutine>, t: Topic) {
    forall k :: k in threads && threads[k].Executing? ==> threads[k].job.topic != t
  }

  /** Goroutine `i` alone is inside the pipeline manager with a job of its topic. */
  ghost predicate OnlyExecutes(threads: map<nat, Goroutine>, i: nat, job: Job) {
    && i in threads && threads[i].Executing? && threads[i].job == job
    && (forall k :: k in threads && k != i && threads[k].Executing? ==> threads[k].job.topic != job.topic)
  }

  /** What an execution adds to the executed jobs. */
  function Completes(g: Goroutine): seq<Job> { if g.Executing? then [g.job] else [] }

  /** Goroutine `id` moved on or left, is not inside the pipeline manager now, and nobody else did anything. */
  ghost predicate MovedOn(threads: map<nat, Goroutine>, after: map<nat, Goroutine>, id: nat) {
    || after == threads - {id}
    || (id in after && after == threads[id := after[id]] && !after[id].Executing?)
  }

  lemma EnqueueMovesNone(s: State, job: Job)
    requires job.topic in s.topicMap
    ensures Enqueue(s, job).threads == s.threads && Enqueue(s, job).executed == s.executed
  {
  }

  lemma StoppedCallerMovesNone(s: State, job: Job)
    requires s.stopped
    ensures SendStep(s, job).threads == s.threads && SendStep(s, job).executed == s.executed
    ensures CreateStep(s, job).threads == s.threads && CreateStep(s, job).executed == s.executed
  {
    if job.topic in s.topicMap {
      EnqueueMovesNone(s, job);
      EnqueueMovesNone(s.(racing := s.racing - multiset{job}), job);
    }
  }

  lemma StoppedHandlerMoves(s: State, id: nat, g: Goroutine)
    requires s.stopped && InLoop(g)
    ensures MovedOn(s.threads, HandlerStep(s, id, g).threads, id)
    ensures HandlerStep(s, id, g).executed == s.executed + Completes(g)
  {
  }

  lemma StoppedCleanupMoves(s: State, id: nat, t: Topic)
    requires s.stopped
    ensures CleanupStep(s, id, t).threads == s.threads - {id} && CleanupStep(s, id, t).executed == s.executed
  {
  }

  lemma StoppedGoroutineMoves(s: State, id: nat)
    requires s.stopped && id in s.threads
    ensures MovedOn(s.threads, AdvanceStep(s, id).threads, id)
    ensures AdvanceStep(s, id).executed == s.executed + Completes(s.threads[id])
  {
    var g := s.threads[id];
    if InLoop(g) {
      StoppedHandlerMoves(s, id, g);
    } else if g.Cleaning? {
      StoppedCleanupMoves(s, id, g.topic);
    }
  }

  /** A step of a stopped serializer leaves goroutines and executed jobs alone, or moves one goroutine. */
  lemma StoppedMoves(s: State, a: Action)
    requires s.stopped
    ensures if a.Advance? && a.id in s.threads then
              && MovedOn(s.threads, Step(s, a).threads, a.id)
              && Step(s, a).executed == s.executed + Completes(s.threads[a.id])
            else Step(s, a).threads == s.threads && Step(s, a).executed == s.executed
  {
    match a {
      case Advance(id) => if id in s.threads { StoppedGoroutineMoves(s, id); }
      case Send(job) => StoppedCallerMovesNone(s, job);
      case Create(job) => StoppedCallerMovesNone(s, job);
      case _ =>
    }
  }

  lemma CompletesProjected(executed: seq<Job>, g: Goroutine, t: Topic)
    requires g.Executing? ==> g.job.topic != t
    ensures Project(executed + Completes(g), t) == Project(executed, t)
  {
    if g.Executing? { ProjectAppend(executed, g.job, t); } else { assert executed + [] == executed; }
  }

  lemma NoneExecutesStays(s: State, a: Action, t: Topic)
    requires s.stopped && NoneExecutes(s.threads, t)
    ensures NoneExecutes(Step(s, a).threads, t)
    ensures Project(Step(s, a).executed, t) == Project(s.executed, t)
  {
    StoppedMoves(s, a);
    if a.Advance? && a.id in s.threads { CompletesProjected(s.executed, s.threads[a.id], t); }
  }

  /** Where a topic can be whose job was being executed when the serializer stopped. */
  ghost predicate Finishing(threads: map<nat, Goroutine>, executed: seq<Job>, i: nat, job: Job, before: seq<Job>) {
    || (OnlyExecutes(threads, i, job) && Project(executed, job.topic) == before)
    || (NoneExecutes(threads, job.topic) && Project(executed, job.topic) == before + [job])
  }

  lemma FinishingStays(s: State, a: Action, i: nat, job: Job, before: seq<Job>)
    requires s.stopped && Finishing(s.threads, s.executed, i, job, before)
    ensures Finishing(Step(s, a).threads, Step(s, a).executed, i, job, before)
  {
    if NoneExecutes(s.threads, job.topic) {
      NoneExecutesStays(s, a, job.topic);
    } else {
      StoppedMoves(s, a);
      if a == Advance(i) {
        ProjectAppend(s.executed, job, job.topic);
      } else if a.Advance? && a.id in s.threads {
        CompletesProjected(s.executed, s.threads[a.id], job.topic);
      }
    }
  }

  lemma StoppedStays(actions: seq<Action>, more: seq<Action>)
    requires Run(actions).stopped
    ensures Run(actions + more).stopped
  {
    NothingStartsAfterStop(actions, more);
  }

  lemma {:induction false} NothingMoreIsExecuted(actions: seq<Action>, more: seq<Action>, t: Topic)
    requires Run(actions).stopped && NoneExecutes(Run(actions).threads, t)
    ensures NoneExecutes(Run(actions + more).threads, t)
    ensures Project(Run(actions + more).executed, t) == Project(Run(actions).executed, t)
    decreases |more|
  {
    if more == [] {
      assert actions + more == actions;
    } else {
      var front := more[..|more| - 1];
      RunLast(actions, more);
      StoppedStays(actions, front);
      NothingMoreIsExecuted(actions, front, t);
      NoneExecutesStays(Run(actions + front), more[|more| - 1], t);
    }
  }

  lemma {:induction false} TheLastIsExecuted(actions: seq<Action>, more: seq<Action>, i: nat, job: Job)
    requires Run(actions).stopped && OnlyExecutes(Run(actions).threads, i, job)
    ensures Finishing(Run(actions + more).threads, Run(actions + more).executed, i, job,
                      Project(Run(actions).executed, job.topic))
    decreases |more|
  {
    if more == [] {
      assert actions + more == actions;
    } else {
      var front := more[..|more| - 1];
      RunLast(actions, more);
      StoppedStays(actions, front);
      TheLastIsExecuted(actions, front, i, job);
      FinishingStays(Run(actions + front), more[|more| - 1], i, job, Project(Run(actions).executed, job.topic));
    }
  }

  lemma AloneInTheManager(actions: seq<Action>, i: nat)
    requires i in Run(actions).threads && Run(actions).threads[i].Executing?
    ensures OnlyExecutes(Run(actions).threads, i, Run(actions).threads[i].job)
  {
    var own := RunKeeps(actions);
  }

  /** Exactly which accepted jobs a stop lets through, for every run and every continuation that all goroutines have
      left: those executed before and the one inside the pipeline manager at the stop. All others, in hand, queued or
      accepted later, are lost, and are found among the dropped and the queued jobs. */
  lemma {:induction false} StopDecides(actions: seq<Action>, more: seq<Action>, t: Topic, i: nat)
    requires Run(actions).stopped && Run(actions + more).threads == map[]
    ensures var s := Run(actions); var r := Run(actions + more);
            && (i in s.threads && s.threads[i].Executing? && s.threads[i].topic == t ==>
                  Project(r.executed, t) == Project(s.executed, t) + [s.threads[i].job])
            && (NoneExecutes(s.threads, t) ==> Project(r.executed, t) == Project(s.executed, t))
            && Project(r.accepted, t) == Project(r.executed, t) + Project(r.dropped, t) + Queue(r, t)
  {
    var s := Run(actions);
    AcceptedIsAccountedFor(actions + more, t, i);
    if i in s.threads && s.threads[i].Executing? && s.threads[i].topic == t {
      HandlerFindsItsChannel(actions, i);
      AloneInTheManager(actions, i);
      TheLastIsExecuted(actions, more, i, s.threads[i].job);
    } else if NoneExecutes(s.threads, t) {
      NothingMoreIsExecuted(actions, more, t);
    }
  }

  /** A sender that found no queue and is overtaken by the stop: its job is not queued, it gets no error, and the job is
      never executed. */
  lemma JobLostToStop(job: Job, more: seq<Action>)
    ensures var actions := [Send(job), SetStopped, Create(job)];
            && Run(actions).accepted == [] && Run(actions).racing == multiset{}
            && Run(actions + more).executed == []
  {
    var actions := [Send(job), SetStopped, Create(job)];
    assert actions[..2] == [Send(job), SetStopped] && actions[..2][..1] == [Send(job)] && [Send(job)][..0] == [];
    var one := Initial.(racing := multiset{job});
    assert Run([Send(job)]) == one;
    assert Run(actions[..2]) == one.(stopped := true);
    assert Run(actions) == Initial.(stopped := true);
    NothingRunsAfterStop(actions, more);
  }

  lemma RunThree(actions: seq<Action>, x: Action, y: Action, z: Action)
    ensures Run(actions + [x, y, z]) == Step(Step(Step(Run(actions), x), y), z)
  {
    assert actions + [x, y, z] == actions + [x] + [y] + [z];
    RunExtends(actions, x, actions + [x]);
    RunExtends(actions + [x], y, actions + [x] + [y]);
    RunExtends(actions + [x] + [y], z, actions + [x] + [y] + [z]);
  }

  /** One goroutine, `jobs` in the queue of its topic, and no caller under way. */
  function OneTopic(t: Topic, jobs: seq<Job>, g: Goroutine, accepted: seq<Job>): State {
    State(map[t := 0], map[0 := jobs], 1, map[0 := g], 1, 1, false, true, multiset{}, accepted, [], [], false, false)
  }

  lemma FirstSent(a: Job)
    ensures Step(Step(Initial, Send(a)), Create(a)) == OneTopic(a.topic, [a], Starting(a.topic), [a])
  {
    assert Step(Initial, Send(a)) == Initial.(racing := multiset{a});
  }

  lemma SecondSent(a: Job, b: Job)
    requires a.topic == b.topic
    ensures Step(OneTopic(a.topic, [a], Starting(a.topic), [a]), Send(b)) ==
            OneTopic(a.topic, [a, b], Starting(a.topic), [a, b])
  {
    assert [a] + [b] == [a, b];
    assert map[0 := [a]][0 := [a, b]] == map[0 := [a, b]];
  }

  lemma TwoSent(a: Job, b: Job)
    requires a.topic == b.topic
    ensures Run([Send(a), Create(a), Send(b)]) == OneTopic(a.topic, [a, b], Starting(a.topic), [a, b])
  {
    RunThree([], Send(a), Create(a), Send(b));
    assert [] + [Send(a), Create(a), Send(b)] == [Send(a), Create(a), Send(b)];
    FirstSent(a);
    SecondSent(a, b);
  }

  /** The first of two jobs is in the handler's hand when the serializer stops. */
  lemma StopsInHand(a: Job, b: Job)
    ensures var t := a.topic; var s := OneTopic(t, [a, b], Starting(t), [a, b]);
            Step(Step(Step(s, Advance(0)), Advance(0)), SetStopped) ==
            OneTopic(t, [b], Holding(t, 0, a), [a, b]).(stopped := true)
  {
    var t := a.topic;
    var s := OneTopic(t, [a, b], Starting(t), [a, b]);
    assert s.threads[0 := Serving(t, 0)] == map[0 := Serving(t, 0)];
    assert Step(s, Advance(0)) == OneTopic(t, [a, b], Serving(t, 0), [a, b]);
    var r := OneTopic(t, [a, b], Serving(t, 0), [a, b]);
    assert r.threads[0 := Holding(t, 0, a)] == map[0 := Holding(t, 0, a)];
    assert [a, b][1..] == [b] && r.chans[0 := [b]] == map[0 := [b]];
    assert Step(r, Advance(0)) == OneTopic(t, [b], Holding(t, 0, a), [a, b]);
  }

  /** The handler drops the job and leaves; a third one is still taken. */
  lemma LeavesAndTakes(a: Job, b: Job, c: Job)
    requires a.topic == c.topic
    ensures var t := a.topic; var s := OneTopic(t, [b], Holding(t, 0, a), [a, b]).(stopped := true);
            var r := Step(Step(Step(s, Advance(0)), Advance(0)), Send(c));
            && r.stopped && r.threads == map[] && Queue(r, t) == [b, c]
            && r.accepted == [a, b, c] && r.executed == [] && r.dropped == [a]
  {
    var t := a.topic;
    var s := OneTopic(t, [b], Holding(t, 0, a), [a, b]).(stopped := true);
    assert s.threads[0 := Leaving(t)] == map[0 := Leaving(t)];
    var one := OneTopic(t, [b], Leaving(t), [a, b]).(stopped := true, dropped := [a]);
    assert Step(s, Advance(0)) == one;
    assert one.threads - {0} == map[];
    var two := one.(threads := map[], waitCount := 0);
    assert Step(one, Advance(0)) == two;
    assert [b] + [c] == [b, c] && [a, b] + [c] == [a, b, c];
  }

  /** Three jobs of one topic are taken without an error and none is executed, ever: the stop makes the handler drop the
      first, the second stays in the queue, and the third is put there after the stop. */
  lemma QueueLostToStop(a: Job, b: Job, c: Job, more: seq<Action>)
    requires a.topic == b.topic == c.topic
    ensures var actions := [Send(a), Create(a), Send(b)] + [Advance(0), Advance(0), SetStopped] +
                           [Advance(0), Advance(0), Send(c)];
            var s := Run(actions);
            && s.stopped && s.threads == map[]
            && s.accepted == [a, b, c] && s.dropped == [a] && Queue(s, a.topic) == [b, c]
            && Run(actions + more).executed == []
  {
    var sent := [Send(a), Create(a), Send(b)];
    var inHand := sent + [Advance(0), Advance(0), SetStopped];
    TwoSent(a, b);
    RunThree(sent, Advance(0), Advance(0), SetStopped);
    StopsInHand(a, b);
    RunThree(inHand, Advance(0), Advance(0), Send(c));
    LeavesAndTakes(a, b, c);
    NothingRunsAfterStop(inHand + [Advance(0), Advance(0), Send(c)], more);
  }

  /** When no goroutine is left and nobody stopped the serializer, all work is done and the map is empty. */
  lemma {:induction false} IdleMeansFinished(actions: seq<Action>, t: Topic)
    requires !Run(actions).stopped && Run(actions).threads == map[]
    ensures Run(actions).topicMap == map[]
    ensures Project(Run(actions).executed, t) == Project(Run(actions).accepted, t)
  {
    var own := RunKeeps(actions);
    var s := Run(actions);
    forall u ensures u !in s.topicMap { assert u !in own; }
    JobsRunInOrder(actions, t, 0);
  }

  // -------------------------------------------------------------------------
  // Without new jobs every schedule ends

  /** An upper bound on the critical sections that goroutine `g` and its successors still need,
      with `q` jobs in its queue. */
  function Weight(g: Goroutine, q: nat): nat {
    match g
    case Leaving(_) => 1
    case Starting(_) => 38 + 10 * q
    case Serving(_, _) => if q == 0 then 5 else 36 + 10 * q
    case Holding(_, _, _) => 44 + 10 * q
    case Executing(_, _, _) => 42 + 10 * q
    case Drained(_) => if q == 0 then 4 else 42 + 10 * q
    case Cleaning(_) => if q == 0 then 2 else 40 + 10 * q
  }

  function WeightAt(s: State, i: nat): nat {
    if i in s.threads then Weight(s.threads[i], |Queue(s, s.threads[i].topic)|) else 0
  }

  function Total(s: State, n: nat): nat {
    if n == 0 then 0 else Total(s, n - 1) + WeightAt(s, n - 1)
  }

  lemma {:induction false} TotalChange(s: State, r: State, n: nat, id: nat)
    requires forall i :: 0 <= i < n && i != id ==> WeightAt(r, i) == WeightAt(s, i)
    ensures Total(r, n) == Total(s, n) + if id < n then WeightAt(r, id) - WeightAt(s, id) else 0
  {
    if n > 0 { TotalChange(s, r, n - 1, id); }
  }

  lemma HandlerQueues(s: State, id: nat, u: Topic)
    requires Channels(s) && id in s.threads && InLoop(s.threads[id]) && u != s.threads[id].topic
    requires BoundAt(s.threads[id], s.topicMap)
    ensures Queue(HandlerStep(s, id, s.threads[id]), u) == Queue(s, u)
  {
    var g := s.threads[id];
    if g.Serving? && Chan(s, g.ch) != [] { TakeQueues(s, id, u); }
  }

  lemma CleanupFields(s: State, id: nat, t: Topic)
    ensures var r := CleanupStep(s, id, t);
            r.chans == s.chans && (r.topicMap == s.topicMap || r.topicMap == s.topicMap - {t})
  {
  }

  lemma OtherQueue(s: State, r: State, t: Topic, u: Topic)
    requires r.chans == s.chans && u != t && (r.topicMap == s.topicMap || r.topicMap == s.topicMap - {t})
    ensures Queue(r, u) == Queue(s, u)
  {
  }

  lemma CleanupQueues(s: State, id: nat, t: Topic, u: Topic)
    requires u != t
    ensures Queue(CleanupStep(s, id, t), u) == Queue(s, u)
  {
    CleanupFields(s, id, t);
    OtherQueue(s, CleanupStep(s, id, t), t, u);
  }

  lemma RetireQueues(s: State, id: nat, t: Topic, u: Topic)
    ensures Queue(RetireStep(s, id, t), u) == Queue(s, u) && Queue(Exit(s, id), u) == Queue(s, u)
  {
  }

  /** A goroutine's critical section leaves the queues of all other topics alone. */
  lemma AdvanceQueues(s: State, id: nat, u: Topic)
    requires Channels(s) && id in s.threads && u != s.threads[id].topic && BoundAt(s.threads[id], s.topicMap)
    ensures Queue(AdvanceStep(s, id), u) == Queue(s, u)
  {
    var g := s.threads[id];
    if InLoop(g) {
      HandlerQueues(s, id, u);
    } else {
      RetireQueues(s, id, g.topic, u);
      CleanupQueues(s, id, g.topic, u);
    }
  }

  /** One goroutine is what it was, if it was there. */
  predicate Untouched(before: map<nat, Goroutine>, after: map<nat, Goroutine>, i: nat) {
    (i in after <==> i in before) && (i in before ==> after[i] == before[i])
  }

  lemma RetireFrame(s: State, id: nat, t: Topic, i: nat)
    requires i != id && i < s.nextThread
    ensures Untouched(s.threads, RetireStep(s, id, t).threads, i) && Untouched(s.threads, Exit(s, id).threads, i)
  {
  }

  lemma CleanupFrame(s: State, id: nat, t: Topic, i: nat)
    requires i != id && i < s.nextThread
    ensures Untouched(s.threads, CleanupStep(s, id, t).threads, i)
  {
    assert Untouched(s.threads, Exit(s, id).threads, i);
  }

  /** A goroutine's critical section does not touch the other goroutines. */
  lemma AdvanceFrame(s: State, id: nat, i: nat)
    requires id in s.threads && i != id && i < s.nextThread
    ensures Untouched(s.threads, AdvanceStep(s, id).threads, i)
  {
    var g := s.threads[id];
    if InLoop(g) {
      assert HandlerStep(s, id, g).threads == s.threads[id := Become(s, g)];
    } else {
      RetireFrame(s, id, g.topic, i);
      CleanupFrame(s, id, g.topic, i);
    }
  }

  /** The weight of the goroutine and of the one it starts, if any, is less than it was. */
  predicate Lighter(s: State, r: State, id: nat) {
    || (r.nextThread == s.nextThread && WeightAt(r, id) < WeightAt(s, id))
    || (r.nextThread == s.nextThread + 1 && WeightAt(r, id) + WeightAt(r, s.nextThread) < WeightAt(s, id))
  }

  lemma TakeLighter(s: State, id: nat)
    requires Channels(s) && id in s.threads && s.threads[id].Serving? && Chan(s, s.threads[id].ch) != []
    requires BoundAt(s.threads[id], s.topicMap)
    ensures Lighter(s, HandlerStep(s, id, s.threads[id]), id)
  {
    var g := s.threads[id];
    TakeQueues(s, id, g.topic);
    assert Queue(s, g.topic) == Chan(s, g.ch);
  }

  lemma HandlerLighter(s: State, id: nat)
    requires id in s.threads && InLoop(s.threads[id]) && BoundAt(s.threads[id], s.topicMap)
    requires s.threads[id].topic in s.topicMap && !(s.threads[id].Serving? && Chan(s, s.threads[id].ch) != [])
    ensures Lighter(s, HandlerStep(s, id, s.threads[id]), id)
  {
    var g := s.threads[id];
    assert Queue(HandlerStep(s, id, g), g.topic) == Queue(s, g.topic);
    match g {
      case Starting(_) =>
      case Serving(_, _) =>
      case Holding(_, _, _) =>
      case Executing(_, _, _) =>
    }
  }

  lemma RetireLighter(s: State, id: nat)
    requires id in s.threads && s.threads[id].Drained? && id < s.nextThread
    ensures Lighter(s, RetireStep(s, id, s.threads[id].topic), id)
  {
    RetireQueues(s, id, s.threads[id].topic, s.threads[id].topic);
  }

  lemma CleanupLighter(s: State, id: nat)
    requires id in s.threads && s.threads[id].Cleaning? && id < s.nextThread && s.threads[id].topic in s.topicMap
    ensures Lighter(s, CleanupStep(s, id, s.threads[id].topic), id)
  {
    var t := s.threads[id].topic;
    var r := CleanupStep(s, id, t);
    if Queue(s, t) == [] {
      assert id !in r.threads;
    } else {
      assert Queue(r, t) == Queue(s, t);
    }
  }

  lemma AdvanceLighter(s: State, own: map<Topic, nat>, id: nat)
    requires Inv(s, own) && id in s.threads
    ensures Lighter(s, AdvanceStep(s, id), id)
  {
    var g := s.threads[id];
    assert id < s.nextThread && BoundAt(g, s.topicMap);
    assert !g.Leaving? ==> g.topic in own && g.topic in s.topicMap;
    if g.Serving? && Chan(s, g.ch) != [] {
      TakeLighter(s, id);
    } else if InLoop(g) {
      HandlerLighter(s, id);
    } else if g.Drained? {
      RetireLighter(s, id);
    } else if g.Cleaning? {
      CleanupLighter(s, id);
    }
  }

  lemma SameWeight(s: State, r: State, i: nat)
    requires Untouched(s.threads, r.threads, i)
    requires i in s.threads && !s.threads[i].Leaving? ==> Queue(r, s.threads[i].topic) == Queue(s, s.threads[i].topic)
    ensures WeightAt(r, i) == WeightAt(s, i)
  {
  }

  lemma AdvanceOthers(s: State, own: map<Topic, nat>, id: nat, i: nat)
    requires Inv(s, own) && id in s.threads && i != id && i < s.nextThread
    ensures WeightAt(AdvanceStep(s, id), i) == WeightAt(s, i)
  {
    AdvanceFrame(s, id, i);
    if i in s.threads && Serves(s.threads[i]) {
      assert own[s.threads[i].topic] == i;
      if s.threads[i].topic == s.threads[id].topic {
        assert !Serves(s.threads[id]);
        RetireQueues(s, id, s.threads[id].topic, s.threads[i].topic);
      } else {
        assert BoundAt(s.threads[id], s.topicMap);
        AdvanceQueues(s, id, s.threads[i].topic);
      }
    }
    SameWeight(s, AdvanceStep(s, id), i);
  }

  lemma TotalFalls(s: State, r: State, id: nat)
    requires id < s.nextThread && Lighter(s, r, id)
    requires forall i :: 0 <= i < s.nextThread && i != id ==> WeightAt(r, i) == WeightAt(s, i)
    ensures Total(r, r.nextThread) < Total(s, s.nextThread)
  {
    TotalChange(s, r, s.nextThread, id);
  }

  lemma AdvanceDecreases(s: State, own: map<Topic, nat>, id: nat)
    requires Inv(s, own) && id in s.threads
    ensures Total(AdvanceStep(s, id), AdvanceStep(s, id).nextThread) < Total(s, s.nextThread)
  {
    AdvanceLighter(s, own, id);
    forall i | 0 <= i < s.nextThread && i != id ensures WeightAt(AdvanceStep(s, id), i) == WeightAt(s, i) {
      AdvanceOthers(s, own, id, i);
    }
    TotalFalls(s, AdvanceStep(s, id), id);
  }

  /** `ids` is a schedule in which every named goroutine is alive when its turn comes. */
  ghost predicate Schedule(s: State, ids: seq<nat>)
    decreases |ids|
  {
    ids == [] || (ids[0] in s.threads && Schedule(AdvanceStep(s, ids[0]), ids[1..]))
  }

  /** From any state of any run, every schedule of the goroutines without new jobs is bounded:
      the serializer cannot spin between handlers and cleanups. */
  lemma {:induction false} EveryScheduleEnds(actions: seq<Action>, ids: seq<nat>)
    requires Schedule(Run(actions), ids)
    ensures |ids| <= Total(Run(actions), Run(actions).nextThread)
  {
    var own := RunKeeps(actions);
    ScheduleBound(Run(actions), own, ids);
  }

  lemma {:induction false} ScheduleBound(s: State, own: map<Topic, nat>, ids: seq<nat>)
    requires Inv(s, own) && Schedule(s, ids)
    ensures |ids| <= Total(s, s.nextThread)
    decreases |ids|
  {
    if ids != [] {
      AdvanceDecreases(s, own, ids[0]);
      var own' := AdvanceKeeps(s, own, ids[0]);
      ScheduleBound(AdvanceStep(s, ids[0]), own', ids[1..]);
    }
  }

  // -------------------------------------------------------------------------
  // Stop ends and releases the manager

  /** The goroutines take their steps in this order. */
  function Moves(ids: seq<nat>): seq<Action> { if ids == [] then [] else [Advance(ids[0])] + Moves(ids[1..]) }

  lemma OneMove(actions: seq<Action>, id: nat, rest: seq<nat>)
    ensures actions + Moves([id] + rest) == (actions + [Advance(id)]) + Moves(rest)
  {
    assert ([id] + rest)[1..] == rest;
    assert actions + ([Advance(id)] + Moves(rest)) == actions + [Advance(id)] + Moves(rest);
  }

  /** From every state of every run the goroutines can finish: a schedule of bounded length leaves none. */
  lemma {:induction false} EveryoneLeaves(actions: seq<Action>) returns (ids: seq<nat>)
    ensures |ids| <= Total(Run(actions), Run(actions).nextThread)
    ensures Run(actions + Moves(ids)).threads == map[]
    decreases Total(Run(actions), Run(actions).nextThread)
  {
    var s := Run(actions);
    if s.threads == map[] {
      ids := [];
      assert actions + [] == actions;
    } else {
      var id :| id in s.threads;
      var own := RunKeeps(actions);
      AdvanceDecreases(s, own, id);
      RunExtends(actions, Advance(id), actions + [Advance(id)]);
      var rest := EveryoneLeaves(actions + [Advance(id)]);
      OneMove(actions, id, rest);
      ids := [id] + rest;
    }
  }

  /** The wait of a stop is over once no goroutine is left, and then the manager is released. */
  lemma ReleaseReleases(actions: seq<Action>)
    ensures Run(actions).stopped && Run(actions).threads == map[] ==> !Run(actions + [ReleaseManager]).manager
    ensures !(Run(actions).stopped && Run(actions).threads == map[]) ==>
              Run(actions + [ReleaseManager]).manager == Run(actions).manager
  {
    RunExtends(actions, ReleaseManager, actions + [ReleaseManager]);
    ShutdownIsSafe(actions);
  }

  /** Stop ends, from every run in which the flag is set: a schedule of bounded length leaves no goroutine, and then the
      manager is released. */
  lemma {:induction false} StopEnds(actions: seq<Action>) returns (ids: seq<nat>)
    requires Run(actions).stopped
    ensures |ids| <= Total(Run(actions), Run(actions).nextThread)
    ensures Run(actions + Moves(ids)).threads == map[]
    ensures !Run(actions + Moves(ids) + [ReleaseManager]).manager
  {
    ids := EveryoneLeaves(actions);
    NothingStartsAfterStop(actions, Moves(ids));
    ReleaseReleases(actions + Moves(ids));
  }

  /** A release at this place of the run found the serializer stopped and left by all goroutines. */
  ghost predicate ReleasedAt(actions: seq<Action>, n: int) {
    && 0 <= n < |actions| && actions[n] == ReleaseManager
    && Run(actions[..n]).stopped && Run(actions[..n]).threads == map[]
  }

  lemma CleanupKeepsManager(s: State, id: nat, t: Topic)
    ensures CleanupStep(s, id, t).manager == s.manager
  {
    assert Exit(s, id).manager == s.manager;
  }

  lemma AdvanceKeepsManager(s: State, id: nat)
    requires id in s.threads
    ensures AdvanceStep(s, id).manager == s.manager
  {
    var g := s.threads[id];
    if InLoop(g) {
      assert HandlerStep(s, id, g).manager == s.manager;
    } else if g.Drained? {
      assert RetireStep(s, id, g.topic).manager == s.manager;
    } else if g.Cleaning? {
      CleanupKeepsManager(s, id, g.topic);
    }
  }

  lemma EnqueueKeepsManager(s: State, job: Job)
    requires job.topic in s.topicMap
    ensures Enqueue(s, job).manager == s.manager
  {
  }

  lemma OpenKeepsManager(s: State, job: Job)
    ensures Open(s, job).manager == s.manager
  {
  }

  lemma CallerKeepsManager(s: State, job: Job)
    ensures SendStep(s, job).manager == s.manager && CreateStep(s, job).manager == s.manager
  {
    var r := s.(racing := s.racing - multiset{job});
    if job.topic in s.topicMap {
      EnqueueKeepsManager(s, job);
      EnqueueKeepsManager(r, job);
    } else {
      OpenKeepsManager(r, job);
    }
  }

  lemma ManagerStays(s: State, a: Action)
    ensures a != ReleaseManager ==> Step(s, a).manager == s.manager
  {
    match a {
      case Advance(id) => if id in s.threads { AdvanceKeepsManager(s, id); }
      case Send(job) => CallerKeepsManager(s, job);
      case Create(job) => CallerKeepsManager(s, job);
      case _ =>
    }
  }

  lemma ManagerGoes(front: seq<Action>, last: Action, all: seq<Action>)
    requires all == front + [last]
    ensures !Run(all).manager <==> !Run(front).manager || ReleasedAt(all, |front|)
  {
    assert all[..|front|] == front && all[|front|] == last;
    RunExtends(front, last, all);
    ManagerStays(Run(front), last);
    if last == ReleaseManager { ReleaseReleases(front); }
  }

  lemma ReleasedEarlier(actions: seq<Action>, n: int)
    requires actions != [] && n != |actions| - 1
    ensures ReleasedAt(actions, n) <==> ReleasedAt(actions[..|actions| - 1], n)
  {
    var front := actions[..|actions| - 1];
    if 0 <= n < |front| { assert front[..n] == actions[..n]; }
  }

  /** In every run the manager is gone exactly when a release came after the stop with no goroutine left. */
  lemma {:induction false} ManagerGoneIff(actions: seq<Action>)
    ensures !Run(actions).manager <==> exists n :: ReleasedAt(actions, n)
  {
    if actions != [] {
      var front := actions[..|actions| - 1];
      ManagerGoneIff(front);
      ManagerGoes(front, actions[|actions| - 1], actions);
      forall n | n != |front| ensures ReleasedAt(actions, n) <==> ReleasedAt(front, n) { ReleasedEarlier(actions, n); }
      assert !ReleasedAt(front, |front|);
    }
  }

  // -------------------------------------------------------------------------
  // The object and its critical sections

  datatype SendError = NoError | QueueMaxed

  class PipelineOpSerializer {
    var jobTopicMap: map<Topic, nat>
    var chans: map<nat, seq<Job>>
    var nextChan: nat
    var goroutines: map<nat, Goroutine>
    var nextGoroutine: nat
    var childWGrp: int
    var stopped: bool
    var hasManager: bool
    ghost var racing: multiset<Job>
    ghost var accepted: seq<Job>
    ghost var executed: seq<Job>
    ghost var dropped: seq<Job>
    ghost var lookupFailed: bool
    ghost var nilManagerUsed: bool

    ghost function View(): State
      reads this
    {
      State(jobTopicMap, chans, nextChan, goroutines, nextGoroutine, childWGrp, stopped, hasManager,
            racing, accepted, executed, dropped, lookupFailed, nilManagerUsed)
    }

    constructor ()
      ensures View() == Initial
    {
      jobTopicMap, chans, nextChan := map[], map[], 0;
      goroutines, nextGoroutine, childWGrp := map[], 0, 0;
      stopped, hasManager := false, true;
      racing, accepted, executed, dropped := multiset{}, [], [], [];
      lookupFailed, nilManagerUsed := false, false;
    }

    /** The select with default that both halves of distributeJob use. */
    method Put(job: Job) returns (err: SendError)
      requires job.topic in jobTopicMap
      modifies this`chans, this`accepted
      ensures View() == Enqueue(old(View()), job)
      ensures err == QueueMaxed <==> |Chan(old(View()), jobTopicMap[job.topic])| >= MAX_QUEUED_JOBS
    {
      var ch := jobTopicMap[job.topic];
      var queued := if ch in chans then chans[ch] else [];
      if |queued| < MAX_QUEUED_JOBS {
        chans := chans[ch := queued + [job]];
        accepted := accepted + [job];
        err := NoError;
      } else {
        err := QueueMaxed;
      }
    }

    /** distributeJob under the read lock; `found` is false when the write lock is needed. */
    method SendToExisting(job: Job) returns (found: bool, err: SendError)
      modifies this
      ensures View() == Step(old(View()), Send(job))
      ensures found <==> job.topic in old(jobTopicMap)
      ensures found && err == NoError ==> accepted == old(accepted) + [job]
      ensures !found || err != NoError ==> accepted == old(accepted)
    {
      found, err := job.topic in jobTopicMap, NoError;
      if found {
        err := Put(job);
      } else {
        racing := racing + multiset{job};
      }
    }

    /** Count a goroutine in the wait group and start it. */
    method Go(g: Goroutine)
      modifies this`goroutines, this`nextGoroutine, this`childWGrp
      ensures View() == Spawn(old(View()), g)
    {
      childWGrp := childWGrp + 1;
      goroutines := goroutines[nextGoroutine := g];
      nextGoroutine := nextGoroutine + 1;
    }

    /** The creation branch of distributeJob: channel, first job, wait group, handler. */
    method Launch(job: Job)
      modifies this`jobTopicMap, this`chans, this`nextChan, this`accepted, this`goroutines, this`nextGoroutine,
          this`childWGrp
      ensures View() == Open(old(View()), job)
    {
      jobTopicMap := jobTopicMap[job.topic := nextChan];
      chans := chans[nextChan := [job]];
      nextChan := nextChan + 1;
      accepted := accepted + [job];
      Go(Starting(job.topic));
    }

    /** distributeJob under the write lock. After the stop the job is not queued and no error is returned. */
    method CreateOrSend(job: Job) returns (err: SendError)
      requires job in racing
      modifies this
      ensures View() == Step(old(View()), Create(job))
      ensures err == NoError && accepted == old(accepted) <==> stopped && job.topic !in old(jobTopicMap)
      ensures err == NoError && accepted != old(accepted) ==> accepted == old(accepted) + [job]
    {
      racing := racing - multiset{job};
      err := NoError;
      if job.topic in jobTopicMap {
        err := Put(job);
      } else if !stopped {
        Launch(job);
      }
    }

    /** handleJobs: look the channel of the topic up. */
    method LookUpChannel(id: nat)
      requires id in goroutines && goroutines[id].Starting?
      modifies this`goroutines, this`lookupFailed
      ensures View() == Step(old(View()), Advance(id))
    {
      var t := goroutines[id].topic;
      if t in jobTopicMap {
        goroutines := goroutines[id := Serving(t, jobTopicMap[t])];
      } else {
        lookupFailed := true;
        goroutines := goroutines[id := Leaving(t)];
      }
    }

    /** handleJobs: the select, which takes a job or finds the channel empty. */
    method SelectJob(id: nat)
      requires id in goroutines && goroutines[id].Serving?
      modifies this`goroutines, this`chans
      ensures View() == Step(old(View()), Advance(id))
    {
      var t, ch := goroutines[id].topic, goroutines[id].ch;
      var queued := if ch in chans then chans[ch] else [];
      if queued == [] {
        goroutines := goroutines[id := Drained(t)];
      } else {
        chans := chans[ch := queued[1..]];
        goroutines := goroutines[id := Holding(t, ch, queued[0])];
      }
    }

    /** handleJobs: the checks between taking a job and running it. */
    method CheckJob(id: nat)
      requires id in goroutines && goroutines[id].Holding?
      modifies this`goroutines, this`dropped
      ensures View() == Step(old(View()), Advance(id))
    {
      var t, ch, job := goroutines[id].topic, goroutines[id].ch, goroutines[id].job;
      if stopped {
        dropped := dropped + [job];
        goroutines := goroutines[id := Leaving(t)];
      } else if job.topic != t {
        dropped := dropped + [job];
        goroutines := goroutines[id := Serving(t, ch)];
      } else {
        goroutines := goroutines[id := Executing(t, ch, job)];
      }
    }

    /** handleJobs: run the job through the pipeline manager. */
    method RunJob(id: nat)
      requires id in goroutines && goroutines[id].Executing?
      modifies this`goroutines, this`executed, this`nilManagerUsed
      ensures View() == Step(old(View()), Advance(id))
    {
      var t, ch, job := goroutines[id].topic, goroutines[id].ch, goroutines[id].job;
      nilManagerUsed := nilManagerUsed || !hasManager;
      executed := executed + [job];
      goroutines := goroutines[id := Serving(t, ch)];
    }

    /** The end of handleJobs: hand the topic to a cleanup goroutine unless stopped. */
    method Retire(id: nat)
      requires id in goroutines && goroutines[id].Drained?
      modifies this
      ensures View() == Step(old(View()), Advance(id))
    {
      var t := goroutines[id].topic;
      goroutines := goroutines[id := Leaving(t)];
      if !stopped { Go(Cleaning(t)); }
    }

    /** The deferred Done: the goroutine is gone and not counted any more. */
    method Done(id: nat)
      modifies this`goroutines, this`childWGrp
      ensures View() == Exit(old(View()), id)
    {
      goroutines, childWGrp := goroutines - {id}, childWGrp - 1;
    }

    /** The end of handleJobs. */
    method Finish(id: nat)
      requires id in goroutines && goroutines[id].Leaving?
      modifies this`goroutines, this`childWGrp
      ensures View() == Step(old(View()), Advance(id))
    {
      Done(id);
    }

    /** cleanupJob under the write lock; the Done at its end is seen by others only with the rest. */
    method CleanupJob(id: nat)
      requires id in goroutines && goroutines[id].Cleaning?
      modifies this
      ensures View() == Step(old(View()), Advance(id))
    {
      var t := goroutines[id].topic;
      Done(id);
      ghost var s := View();
      if t in jobTopicMap {
        var ch := jobTopicMap[t];
        if ch !in chans || chans[ch] == [] {
          jobTopicMap := jobTopicMap - {t};
          assert View() == s.(topicMap := s.topicMap - {t});
        } else if !stopped {
          Go(Starting(t));
        }
      }
      assert View() == CleanupStep(old(View()), id, t);
    }

    /** Stop: set the flag. */
    method BeginStop()
      modifies this
      ensures View() == Step(old(View()), SetStopped)
    {
      stopped := true;
    }

    /** Stop: the wait on the group has returned, release the manager. */
    method EndStop()
      requires stopped && childWGrp == 0
      modifies this
      ensures View() == Step(old(View()), ReleaseManager)
    {
      hasManager := false;
    }
  }
}
