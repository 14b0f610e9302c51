// The channels are queues: what is received first was sent first, and no channel holds more
// than it has room for. A goroutine reads back from nextWorker what was stored there last.
module QueueOrder {
  import opened Common
  import opened Jobs
  import opened Queue
  import opened QueueConservation
  import opened QueueInvariant
  import opened QueueSteps
  import opened QueueTermination
  import opened QueueRequests

  lemma LocalLeavesChannels(c: Config, s: State, a: Action)
    requires Enabled(c, s, a) && a.Local?
    ensures var s' := Next(c, s, a);
            && s'.handlers == s.handlers && s'.jobQueue == s.jobQueue && s'.pool == s.pool && s'.nextWorker == s.nextWorker
            && |s'.workers| == |s.workers|
            && (forall w :: 0 <= w < |s.workers| ==> s'.workers[w].inbox == s.workers[w].inbox)
            && |s'.routines| == |s.routines|
            && forall r :: 0 <= r < |s.routines| ==> s'.routines[r].job == s.routines[r].job
  {
    hide Enabled, Next, WorkStep, Possible, WorkerLocal, RoutineLocal;
    LocalSteps(c, s, a);
    if a.agent.WorkerAgent? {
      WorkerLocalShape(c, s, a.agent.i, a.answer);
    } else {
      RoutineLocalShape(c, s, a.agent.i, a.answer);
    }
  }

  // ---- The job channel ----

  function JobsOf(routines: seq<Routine>): (js: seq<JobId>)
    ensures |js| == |routines| && forall i :: 0 <= i < |js| ==> js[i] == routines[i].job
  {
    seq(|routines|, i requires 0 <= i < |routines| => routines[i].job)
  }

  /** The job that the step puts into the job channel, or hands to a dispatcher that waits. */
  ghost function Sends(s: State, a: Action): seq<JobId> {
    match a
    case Send(x) => if CanSend(s, x) then [Carried(s, x)] else []
    case Handoff(x) => if CanSend(s, x) then [Carried(s, x)] else []
    case _ => []
  }

  ghost function SentJobs(run: Run, n: nat): seq<JobId>
    requires HasSteps(run, n)
  {
    if n == 0 then [] else SentJobs(run, n - 1) + Sends(run.states[n - 1], run.actions[n - 1])
  }

  lemma StepKeepsJobOrder(c: Config, s: State, a: Action)
    requires Enabled(c, s, a)
    ensures var s' := Next(c, s, a);
            JobsOf(s'.routines) + s'.jobQueue == JobsOf(s.routines) + s.jobQueue + Sends(s, a)
  {
    hide WorkerLocal, RoutineLocal, WorkerAsks, RoutineAsks;
    if a.Local? {
      LocalLeavesChannels(c, s, a);
    } else if IsTokenStep(a) {
      TokensKeepJobs(c, s, a);
    }
  }

  lemma TokensKeepJobs(c: Config, s: State, a: Action)
    requires Enabled(c, s, a) && IsTokenStep(a)
    ensures JobsOf(Next(c, s, a).routines) == JobsOf(s.routines) && Next(c, s, a).jobQueue == s.jobQueue
  {
    hide WorkerLocal, RoutineLocal, WorkerAsks, RoutineAsks;
  }

  /** Goroutines are started for the jobs in the order in which those were sent, and what was sent
      and not yet received waits in that order. */
  lemma {:induction false} JobsStartInOrder(c: Config, run: Run, n: nat)
    requires IsRun(c, run) && n < |run.states|
    ensures JobsOf(run.states[n].routines) + run.states[n].jobQueue == SentJobs(run, n)
  {
    hide Enabled, Next, Sends;
    if n > 0 {
      JobsStartInOrder(c, run, n - 1);
      RunStep(c, run, n - 1);
      StepKeepsJobOrder(c, run.states[n - 1], run.actions[n - 1]);
    }
  }

  // ---- The pool ----

  ghost function Announces(a: Action): seq<WorkerId> {
    match a
    case Announce(w) => [w]
    case Meet(w, _) => [w]
    case _ => []
  }

  /** The token that a goroutine has received in the step. */
  ghost function Takes(a: Action, s': State): seq<WorkerId> {
    match a
    case TakeToken(r) => if r < |s'.routines| && s'.routines[r].pc.GotToken? then [s'.routines[r].pc.token] else []
    case Meet(_, r) => if r < |s'.routines| && s'.routines[r].pc.GotToken? then [s'.routines[r].pc.token] else []
    case _ => []
  }

  ghost function AnnouncedTokens(run: Run, n: nat): seq<WorkerId>
    requires HasSteps(run, n)
  {
    if n == 0 then [] else AnnouncedTokens(run, n - 1) + Announces(run.actions[n - 1])
  }

  ghost function TakenTokens(run: Run, n: nat): seq<WorkerId>
    requires HasSteps(run, n)
  {
    if n == 0 then [] else TakenTokens(run, n - 1) + Takes(run.actions[n - 1], run.states[n])
  }

  lemma StepKeepsPoolOrder(c: Config, s: State, a: Action)
    requires Enabled(c, s, a)
    ensures Takes(a, Next(c, s, a)) + Next(c, s, a).pool == s.pool + Announces(a)
  {
    hide WorkerLocal, RoutineLocal, WorkerAsks, RoutineAsks;
    if a.Local? {
      LocalLeavesChannels(c, s, a);
    }
  }

  /** Goroutines receive the inboxes in the order in which workers announced them. */
  lemma {:induction false} TokensAreTakenInOrder(c: Config, run: Run, n: nat)
    requires IsRun(c, run) && n < |run.states|
    ensures TakenTokens(run, n) + run.states[n].pool == AnnouncedTokens(run, n)
  {
    hide Enabled, Next, Takes, Announces;
    if n > 0 {
      TokensAreTakenInOrder(c, run, n - 1);
      RunStep(c, run, n - 1);
      var s, a, s' := run.states[n - 1], run.actions[n - 1], run.states[n];
      StepKeepsPoolOrder(c, s, a);
      var before := TakenTokens(run, n - 1);
      assert before + (Takes(a, s') + s'.pool) == before + Takes(a, s') + s'.pool;
      assert before + (s.pool + Announces(a)) == before + s.pool + Announces(a);
    }
  }

  // ---- nextWorker ----

  /** The token that was assigned to nextWorker last. */
  ghost function LastStored(run: Run, n: nat): Option<WorkerId>
    requires HasSteps(run, n)
  {
    if n == 0 then None
    else
      var s := run.states[n - 1];
      match run.actions[n - 1]
      case Store(r) => if r < |s.routines| && s.routines[r].pc.GotToken? then Some(s.routines[r].pc.token) else None
      case _ => LastStored(run, n - 1)
  }

  lemma StepStores(c: Config, s: State, a: Action)
    requires Enabled(c, s, a)
    ensures !a.Store? ==> Next(c, s, a).nextWorker == s.nextWorker
    ensures a.Store? ==> a.r < |s.routines| && s.routines[a.r].pc.GotToken?
                         && Next(c, s, a).nextWorker == Some(s.routines[a.r].pc.token)
  {
    hide WorkerLocal, RoutineLocal, WorkerAsks, RoutineAsks;
    if a.Local? {
      LocalLeavesChannels(c, s, a);
    }
  }

  lemma {:induction false} NextWorkerIsLastStored(c: Config, run: Run, n: nat)
    requires IsRun(c, run) && n < |run.states|
    ensures run.states[n].nextWorker == LastStored(run, n)
  {
    hide Enabled, Next;
    if n > 0 {
      NextWorkerIsLastStored(c, run, n - 1);
      RunStep(c, run, n - 1);
      StepStores(c, run.states[n - 1], run.actions[n - 1]);
    }
  }

  /** A goroutine that reads nextWorker back is bound to the inbox that any goroutine stored there
      last, whichever it stored itself. */
  lemma BindsToLastStored(c: Config, run: Run, n: nat, r: nat)
    requires IsRun(c, run) && n < |run.actions| && run.actions[n] == Bind(r)
    ensures r < |run.states[n + 1].routines| && LastStored(run, n).Some?
    ensures run.states[n + 1].routines[r].pc == Bound(LastStored(run, n).value)
  {
    hide WorkerLocal, RoutineLocal, WorkerAsks, RoutineAsks;
    RunStep(c, run, n);
    NextWorkerIsLastStored(c, run, n);
  }

  // ---- The inboxes ----

  ghost function Delivers(s: State, a: Action, w: WorkerId): seq<JobId> {
    match a
    case Deliver(r) => if IsBound(s, r) && s.routines[r].pc.target == w then [s.routines[r].job] else []
    case DeliverDirect(r) => if IsBound(s, r) && s.routines[r].pc.target == w then [s.routines[r].job] else []
    case _ => []
  }

  /** The job that worker `w` has begun with in the step. */
  ghost function Receives(s: State, a: Action, s': State, w: WorkerId): seq<JobId> {
    if w < |s'.workers| && s'.workers[w].mode.Executing?
       && (a == Receive(w) || (a.DeliverDirect? && IsBound(s, a.r) && s.routines[a.r].pc.target == w))
    then [s'.workers[w].mode.job] else []
  }

  ghost function Delivered(run: Run, n: nat, w: WorkerId): seq<JobId>
    requires HasSteps(run, n)
  {
    if n == 0 then [] else Delivered(run, n - 1, w) + Delivers(run.states[n - 1], run.actions[n - 1], w)
  }

  ghost function Received(run: Run, n: nat, w: WorkerId): seq<JobId>
    requires HasSteps(run, n)
  {
    if n == 0 then [] else Received(run, n - 1, w) + Receives(run.states[n - 1], run.actions[n - 1], run.states[n], w)
  }

  lemma StepKeepsInboxOrder(c: Config, s: State, a: Action, w: WorkerId)
    requires Enabled(c, s, a) && w < |s.workers|
    ensures var s' := Next(c, s, a);
            && |s'.workers| == |s.workers|
            && Receives(s, a, s', w) + s'.workers[w].inbox == s.workers[w].inbox + Delivers(s, a, w)
  {
    hide WorkerLocal, RoutineLocal, WorkerAsks, RoutineAsks;
    if a.Local? {
      LocalLeavesChannels(c, s, a);
    }
  }

  /** A worker receives its jobs in the order in which they were delivered to its inbox. */
  lemma {:induction false} InboxesAreReadInOrder(c: Config, run: Run, n: nat, w: WorkerId)
    requires IsRun(c, run) && n < |run.states| && w < c.workers
    ensures |run.states[n].workers| == c.workers
    ensures Received(run, n, w) + run.states[n].workers[w].inbox == Delivered(run, n, w)
  {
    hide Enabled, Next, Receives, Delivers;
    if n > 0 {
      InboxesAreReadInOrder(c, run, n - 1, w);
      RunStep(c, run, n - 1);
      var s, a, s' := run.states[n - 1], run.actions[n - 1], run.states[n];
      StepKeepsInboxOrder(c, s, a, w);
      var before := Received(run, n - 1, w);
      assert before + (Receives(s, a, s', w) + s'.workers[w].inbox) == before + Receives(s, a, s', w) + s'.workers[w].inbox;
      assert before + (s.workers[w].inbox + Delivers(s, a, w)) == before + s.workers[w].inbox + Delivers(s, a, w);
    }
  }

  // ---- The handlers ----

  /** The jobs of request `r`, in the order of their creation. */
  function IdsOf(jobs: seq<Job>, r: RequestId): seq<JobId> {
    if jobs == [] then []
    else IdsOf(jobs[..|jobs| - 1], r) + if jobs[|jobs| - 1].requestedBy == r then [|jobs| - 1] else []
  }

  lemma {:induction false} IdsOfSame(a: seq<Job>, b: seq<Job>, r: RequestId)
    requires |a| == |b| && forall i :: 0 <= i < |a| ==> a[i].requestedBy == b[i].requestedBy
    ensures IdsOf(a, r) == IdsOf(b, r)
  {
    if a != [] {
      IdsOfSame(a[..|a| - 1], b[..|b| - 1], r);
    }
  }

  lemma {:induction false} IdsOfNobody(jobs: seq<Job>, r: RequestId)
    requires forall i :: 0 <= i < |jobs| ==> jobs[i].requestedBy != r
    ensures IdsOf(jobs, r) == []
  {
    if jobs != [] {
      IdsOfNobody(jobs[..|jobs| - 1], r);
    }
  }

  ghost function SentBy(run: Run, n: nat, h: RequestId): seq<JobId>
    requires HasSteps(run, n)
  {
    if n == 0 then []
    else SentBy(run, n - 1, h) + HandsOver(run.states[n - 1], run.actions[n - 1], h)
  }

  ghost function HandsOver(s: State, a: Action, h: RequestId): seq<JobId> {
    if a == Send(HandlerAgent(h)) || a == Handoff(HandlerAgent(h)) then Sends(s, a) else []
  }

  /** The handler sends its jobs in the order of their creation, and none before all are inserted. */
  ghost predicate SendsInOrder(s: State, h: RequestId, sent: seq<JobId>) {
    if h < |s.handlers| then
      && (s.handlers[h].todo != [] ==> sent == [])
      && (sent + s.handlers[h].ready == IdsOf(s.jobs, h)
          || (GaveUp(s, h) && sent == [] && s.handlers[h].ready == [] && s.handlers[h].todo == []))
    else sent == []
  }

  lemma InsertSendsInOrder(c: Config, s: State, h: RequestId, reply: Reply, g: RequestId, sent: seq<JobId>)
    requires CanInsert(s, h) && Batched(s) && SendsInOrder(s, g, sent)
    ensures SendsInOrder(DoInsert(s, h, reply), g, sent)
  {
    var s' := DoInsert(s, h, reply);
    assert s'.jobs[..|s.jobs|] == s.jobs;
    if g < |s.handlers| {
      if g == h && !reply.Acked() {
        GivingUpDropsAll(s, h, reply);
      } else if g != h && GaveUp(s, g) {
        forall k: JobId | OfRequest(s', g, k) ensures k in s'.dropped {
          assert OfRequest(s, g, k);
        }
      }
    }
  }

  lemma HandlersSend(c: Config, s: State, a: Action, h: RequestId)
    requires Enabled(c, s, a) && !a.Insert? && h < |s.handlers|
    ensures h < |Next(c, s, a).handlers|
    ensures s.handlers[h].ready == HandsOver(s, a, h) + Next(c, s, a).handlers[h].ready
    ensures HandsOver(s, a, h) != [] ==> s.handlers[h].todo == [] && s.handlers[h].ready != []
    ensures Next(c, s, a).handlers[h].todo == s.handlers[h].todo
  {
    hide WorkerLocal, RoutineLocal, WorkerAsks, RoutineAsks;
    if a.Local? {
      LocalLeavesChannels(c, s, a);
    }
  }

  lemma NewHandlerSends(s: State, macs: seq<string>)
    requires Batched(s)
    ensures SendsInOrder(DoNewRequest(s, macs), |s.handlers|, [])
  {
    IdsOfNobody(s.jobs, |s.handlers|);
  }

  lemma StepSendsInOrder(c: Config, s: State, a: Action, h: RequestId, sent: seq<JobId>)
    requires Batched(s) && Enabled(c, s, a) && SendsInOrder(s, h, sent)
    ensures SendsInOrder(Next(c, s, a), h, sent + HandsOver(s, a, h))
  {
    hide Enabled, Next, Batched;
    StepShape(c, s, a);
    if a.Insert? {
      InsertSendsInOrder(c, s, a.h, a.reply, h, sent);
    } else if h < |s.handlers| {
      OtherSendsInOrder(c, s, a, h, sent);
    } else {
      NoHandlerNoSend(c, s, a, h);
      if a.NewRequest? && h == |s.handlers| {
        NewHandlerSends(s, a.macs);
      }
    }
  }

  lemma NoHandlerNoSend(c: Config, s: State, a: Action, h: RequestId)
    requires Enabled(c, s, a) && h >= |s.handlers|
    ensures HandsOver(s, a, h) == []
  {
  }

  lemma OtherSendsInOrder(c: Config, s: State, a: Action, h: RequestId, sent: seq<JobId>)
    requires Enabled(c, s, a) && !a.Insert? && h < |s.handlers| && SendsInOrder(s, h, sent)
    ensures SendsInOrder(Next(c, s, a), h, sent + HandsOver(s, a, h))
  {
    hide Enabled, Next, HandsOver;
    var s' := Next(c, s, a);
    HandlersSend(c, s, a, h);
    StepHeap(c, s, a);
    HandlersKeepReady(c, s, a);
    forall j | 0 <= j < |s.jobs| ensures s'.jobs[j].requestedBy == s.jobs[j].requestedBy {
      StepKeepsIdentity(c, s, a, j);
    }
    IdsOfSame(s.jobs, s'.jobs, h);
    assert forall k: JobId :: OfRequest(s', h, k) ==> OfRequest(s, h, k);
    assert sent + HandsOver(s, a, h) + s'.handlers[h].ready == sent + s.handlers[h].ready;
  }

  lemma {:induction false} RunSendsInOrder(c: Config, run: Run, n: nat, h: RequestId)
    requires IsRun(c, run) && n < |run.states|
    ensures SendsInOrder(run.states[n], h, SentBy(run, n, h))
  {
    hide Enabled, Next, Batched, SendsInOrder, HandsOver;
    if n == 0 {
      NothingSentYet(c, h);
    } else {
      RunSendsInOrder(c, run, n - 1, h);
      RunBatches(c, run, n - 1);
      RunStep(c, run, n - 1);
      StepSendsInOrder(c, run.states[n - 1], run.actions[n - 1], h, SentBy(run, n - 1, h));
    }
  }

  lemma NothingSentYet(c: Config, h: RequestId)
    ensures SendsInOrder(Init(c), h, [])
  {
  }

  /** A handler that did not give up has sent its jobs, and will send the rest, in the order in
      which it created them: the host job first. */
  lemma HandlersSendInOrder(c: Config, run: Run, n: nat, h: RequestId)
    requires IsRun(c, run) && n < |run.states| && h < |run.states[n].handlers|
    ensures !GaveUp(run.states[n], h) ==> SentBy(run, n, h) + run.states[n].handlers[h].ready == IdsOf(run.states[n].jobs, h)
    ensures SentBy(run, n, h) != [] ==> run.states[n].handlers[h].todo == []
  {
    RunSendsInOrder(c, run, n, h);
  }

  // ---- Room ----

  ghost predicate Bounded(c: Config, s: State) {
    && |s.jobQueue| <= c.buffer
    && |s.pool| <= c.capacity
    && forall w :: 0 <= w < |s.workers| ==> |s.workers[w].inbox| <= c.capacity
  }

  lemma StepKeepsBounds(c: Config, s: State, a: Action)
    requires Bounded(c, s) && Enabled(c, s, a)
    ensures Bounded(c, Next(c, s, a))
  {
    hide WorkerLocal, RoutineLocal, WorkerAsks, RoutineAsks;
    if a.Local? {
      LocalLeavesChannels(c, s, a);
    }
  }

  /** No channel ever holds more than it was made for. */
  lemma {:induction false} ChannelsAreBounded(c: Config, run: Run, n: nat)
    requires IsRun(c, run) && n < |run.states|
    ensures Bounded(c, run.states[n])
  {
    hide Enabled, Next;
    if n > 0 {
      ChannelsAreBounded(c, run, n - 1);
      RunStep(c, run, n - 1);
      StepKeepsBounds(c, run.states[n - 1], run.actions[n - 1]);
    }
  }
}
