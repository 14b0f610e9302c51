// A request is all or nothing: none of its jobs is sent before all are inserted, and none
// is sent when an insertion fails.
module QueueRequests {
  import opened Common
  import opened Ports
  import opened Jobs
  import opened Queue
  import opened QueueConservation
  import opened QueueInvariant
  import opened QueueSteps
  import opened QueueTermination

  ghost predicate OfRequest(s: State, r: RequestId, j: JobId) {
    j < |s.jobs| && s.jobs[j].requestedBy == r
  }

  ghost predicate SameRequest(s: State, j: JobId, k: JobId)
    requires j < |s.jobs| && k < |s.jobs|
  {
    s.jobs[j].requestedBy == s.jobs[k].requestedBy
  }

  ghost predicate Batched(s: State) {
    && (forall j :: 0 <= j < |s.jobs| ==>
          var r := s.jobs[j].requestedBy;
          r < |s.handlers| && (s.handlers[r].todo != [] ==> j in s.handlers[r].ready))
    && (forall j, k :: 0 <= j < |s.jobs| && 0 <= k < |s.jobs| && SameRequest(s, j, k) && j in s.dropped ==> k in s.dropped)
  }

  lemma InsertBatches(c: Config, s: State, h: nat, reply: Reply)
    requires Inv(c, s) && Batched(s) && CanInsert(s, h)
    ensures Batched(DoInsert(s, h, reply))
  {
    var s' := DoInsert(s, h, reply);
    forall j | 0 <= j < |s'.jobs|
      ensures var r := s'.jobs[j].requestedBy;
              r < |s'.handlers| && (s'.handlers[r].todo != [] ==> j in s'.handlers[r].ready)
    {
      assert j < |s.jobs| ==> s'.jobs[j] == s.jobs[j];
    }
    forall j, k | 0 <= j < |s'.jobs| && 0 <= k < |s'.jobs| && SameRequest(s', j, k) && j in s'.dropped
      ensures k in s'.dropped
    {
      DroppedTogether(c, s, h, reply, j, k);
    }
  }

  lemma DroppedTogether(c: Config, s: State, h: nat, reply: Reply, j: JobId, k: JobId)
    requires Inv(c, s) && Batched(s) && CanInsert(s, h)
    requires var s' := DoInsert(s, h, reply);
             j < |s'.jobs| && k < |s'.jobs| && SameRequest(s', j, k) && j in s'.dropped
    ensures k in DoInsert(s, h, reply).dropped
  {
    var s' := DoInsert(s, h, reply);
    if j in s.dropped {
      // Its handler had no more to insert, or would hold it still.
      NotDroppedWhileInserting(c, s, h, j);
      assert s'.jobs[j] == s.jobs[j];
      assert SameRequest(s, j, k);
    } else {
      assert j == |s.jobs| || j in s.handlers[h].ready;
      if j in s.handlers[h].ready {
        assert Holds(s, InHandler(h), j);
        assert JobOk(c, s.jobs[j], s.db, j, Fresh(h));
      }
      assert s'.jobs[j].requestedBy == h;
      if k < |s.jobs| {
        assert s.jobs[k].requestedBy == h;
      }
    }
  }

  /** A dropped job is not of a request whose handler still inserts. */
  lemma NotDroppedWhileInserting(c: Config, s: State, h: nat, j: JobId)
    requires Inv(c, s) && Batched(s) && CanInsert(s, h) && j in s.dropped
    ensures j < |s.jobs| && s.jobs[j].requestedBy != h
  {
    assert Holds(s, IsDropped, j);
    AtMostOnePlace(s, IsDropped, IsDropped, j);
    if s.jobs[j].requestedBy == h {
      AtMostOnePlace(s, IsDropped, InHandler(h), j);
    }
  }

  lemma StepBatches(c: Config, s: State, a: Action)
    requires Inv(c, s) && Batched(s) && Enabled(c, s, a)
    ensures Batched(Next(c, s, a))
  {
    hide Enabled, Next, Inv;
    var s' := Next(c, s, a);
    StepShape(c, s, a);
    if a.Insert? {
      InsertBatches(c, s, a.h, a.reply);
    } else {
      StepHeap(c, s, a);
      forall j | 0 <= j < |s'.jobs| ensures s'.jobs[j].requestedBy == s.jobs[j].requestedBy {
        StepKeepsIdentity(c, s, a, j);
      }
      assert forall j, k :: 0 <= j < |s'.jobs| && 0 <= k < |s'.jobs| && SameRequest(s', j, k) ==> SameRequest(s, j, k);
      HandlersKeepReady(c, s, a);
    }
  }

  /** Outside insertions a handler keeps what it has yet to insert, and then the jobs it has. */
  lemma HandlersKeepReady(c: Config, s: State, a: Action)
    requires Enabled(c, s, a) && !a.Insert?
    ensures var s' := Next(c, s, a);
            && s'.dropped == s.dropped
            && |s'.handlers| >= |s.handlers|
            && forall i :: 0 <= i < |s.handlers| ==>
                 s'.handlers[i].todo == s.handlers[i].todo && s'.handlers[i].asked == s.handlers[i].asked
                 && (s.handlers[i].todo != [] ==> s'.handlers[i] == s.handlers[i])
  {
  }

  lemma {:induction false} RunBatches(c: Config, run: Run, n: nat)
    requires IsRun(c, run) && n < |run.states|
    ensures Batched(run.states[n])
  {
    hide Enabled, Next, Inv;
    if n > 0 {
      RunBatches(c, run, n - 1);
      RunKeepsInv(c, run, n - 1);
      StepBatches(c, run.states[n - 1], run.actions[n - 1]);
    }
  }

  // ---- The jobs of a request are the ones asked for ----

  /** What a job was created as. */
  function SpecOf(job: Job): JobSpec {
    if job.action == RsviewParse then PortJob(job.port.mac) else HostJob
  }

  /** The jobs of request `r` in the order of their creation. */
  function SpecsOf(jobs: seq<Job>, r: RequestId): seq<JobSpec> {
    if jobs == [] then []
    else
      var last := jobs[|jobs| - 1];
      SpecsOf(jobs[..|jobs| - 1], r) + if last.requestedBy == r then [SpecOf(last)] else []
  }

  lemma {:induction false} SpecsOfSame(a: seq<Job>, b: seq<Job>, r: RequestId)
    requires |a| == |b|
    requires forall i :: 0 <= i < |a| ==> a[i].requestedBy == b[i].requestedBy && SpecOf(a[i]) == SpecOf(b[i])
    ensures SpecsOf(a, r) == SpecsOf(b, r)
  {
    if a != [] {
      SpecsOfSame(a[..|a| - 1], b[..|b| - 1], r);
    }
  }

  lemma {:induction false} SpecsOfNobody(jobs: seq<Job>, r: RequestId)
    requires forall i :: 0 <= i < |jobs| ==> jobs[i].requestedBy != r
    ensures SpecsOf(jobs, r) == []
  {
    if jobs != [] {
      SpecsOfNobody(jobs[..|jobs| - 1], r);
    }
  }

  lemma SpecsOfOneMore(jobs: seq<Job>, h: RequestId, spec: JobSpec, r: RequestId)
    ensures SpecsOf(jobs + [NewJob(h, spec)], r) == SpecsOf(jobs, r) + if h == r then [spec] else []
  {
    assert (jobs + [NewJob(h, spec)])[..|jobs|] == jobs;
  }

  ghost predicate GaveUp(s: State, r: RequestId) {
    forall k: JobId :: OfRequest(s, r, k) ==> k in s.dropped
  }

  /** The jobs created for request `r` and those its handler has yet to insert are one host job
      and one job for each asked MAC address, unless the handler gave up. */
  ghost predicate AsAsked(s: State, r: RequestId)
    requires r < |s.handlers|
  {
    || SpecsOf(s.jobs, r) + s.handlers[r].todo == [HostJob] + Specs(s.handlers[r].asked)
    || (s.handlers[r].todo == [] && GaveUp(s, r))
  }

  ghost predicate AllAsAsked(s: State) {
    forall r :: 0 <= r < |s.handlers| ==> AsAsked(s, r)
  }

  lemma InsertAsAsked(c: Config, s: State, h: nat, reply: Reply, r: RequestId)
    requires Inv(c, s) && Batched(s) && CanInsert(s, h) && r < |s.handlers| && AsAsked(s, r)
    ensures AsAsked(DoInsert(s, h, reply), r)
  {
    hide AsAsked, Batched, Inv, DoInsert;
    if r != h {
      OtherInsertAsAsked(s, h, reply, r);
    } else if reply.Acked() {
      AckedInsertAsAsked(s, h, reply);
    } else {
      GivingUpDropsAll(s, h, reply);
    }
  }

  lemma AckedInsertAsAsked(s: State, h: nat, reply: Reply)
    requires CanInsert(s, h) && reply.Acked() && AsAsked(s, h)
    ensures AsAsked(DoInsert(s, h, reply), h)
  {
    hide SpecsOf, Specs, GaveUp;
    var hd := s.handlers[h];
    SpecsOfOneMore(s.jobs, h, hd.todo[0], h);
    assert SpecsOf(s.jobs, h) + [hd.todo[0]] + hd.todo[1..] == SpecsOf(s.jobs, h) + hd.todo;
  }

  lemma GivingUpDropsAll(s: State, h: nat, reply: Reply)
    requires CanInsert(s, h) && !reply.Acked() && Batched(s)
    ensures GaveUp(DoInsert(s, h, reply), h) && AsAsked(DoInsert(s, h, reply), h)
  {
    hide SpecsOf, Specs;
    var s' := DoInsert(s, h, reply);
    forall k: JobId | OfRequest(s', h, k) ensures k in s'.dropped {
      if k < |s.jobs| {
        assert s.jobs[k].requestedBy == h;
        assert k in s.handlers[h].ready;
      }
    }
  }

  lemma OtherInsertAsAsked(s: State, h: nat, reply: Reply, r: RequestId)
    requires CanInsert(s, h) && r < |s.handlers| && r != h && AsAsked(s, r)
    ensures AsAsked(DoInsert(s, h, reply), r)
  {
    hide SpecsOf, Specs;
    SpecsOfOneMore(s.jobs, h, s.handlers[h].todo[0], r);
    forall k: JobId | OfRequest(DoInsert(s, h, reply), r, k) ensures OfRequest(s, r, k) {
    }
  }

  lemma OtherStepAsAsked(c: Config, s: State, a: Action, r: RequestId)
    requires Enabled(c, s, a) && !a.Insert? && r < |s.handlers| && AsAsked(s, r)
    ensures r < |Next(c, s, a).handlers| && AsAsked(Next(c, s, a), r)
  {
    hide Enabled, Next;
    var s' := Next(c, s, a);
    StepHeap(c, s, a);
    HandlersKeepReady(c, s, a);
    forall j | 0 <= j < |s.jobs|
      ensures s'.jobs[j].requestedBy == s.jobs[j].requestedBy && SpecOf(s'.jobs[j]) == SpecOf(s.jobs[j])
    {
      StepKeepsIdentity(c, s, a, j);
    }
    SpecsOfSame(s.jobs, s'.jobs, r);
    assert forall k: JobId :: OfRequest(s', r, k) ==> OfRequest(s, r, k);
  }

  lemma NewRequestAsAsked(s: State, macs: seq<string>)
    requires Batched(s)
    ensures AsAsked(DoNewRequest(s, macs), |s.handlers|)
  {
    SpecsOfNobody(s.jobs, |s.handlers|);
  }

  lemma StepAsAsked(c: Config, s: State, a: Action)
    requires Inv(c, s) && Batched(s) && AllAsAsked(s) && Enabled(c, s, a)
    ensures AllAsAsked(Next(c, s, a))
  {
    hide Enabled, Next, Inv, Batched, AsAsked;
    var s' := Next(c, s, a);
    StepShape(c, s, a);
    forall r | 0 <= r < |s'.handlers| ensures AsAsked(s', r) {
      if r == |s.handlers| {
        NewRequestAsAsked(s, a.macs);
      } else if a.Insert? {
        InsertAsAsked(c, s, a.h, a.reply, r);
      } else {
        OtherStepAsAsked(c, s, a, r);
      }
    }
  }

  lemma {:induction false} RunAsAsked(c: Config, run: Run, n: nat)
    requires IsRun(c, run) && n < |run.states|
    ensures AllAsAsked(run.states[n])
  {
    hide Enabled, Next, Inv, Batched, AsAsked;
    if n > 0 {
      RunAsAsked(c, run, n - 1);
      RunBatches(c, run, n - 1);
      RunKeepsInv(c, run, n - 1);
      StepAsAsked(c, run.states[n - 1], run.actions[n - 1]);
    }
  }

  // ---- All or nothing ----

  /** The job left its handler for the queue. */
  ghost predicate Submitted(s: State, j: JobId) {
    exists p :: Holds(s, p, j) && !p.InHandler? && !p.IsDropped?
  }

  /** Once one job of a request was submitted, the jobs of the request are one host job and one job
      for each asked MAC address, in that order; each of them has its row, and none is ever dropped. */
  lemma RequestsAreAllOrNothing(c: Config, s: State, j: JobId, r: RequestId)
    requires Reachable(c, s) && OfRequest(s, r, j) && Submitted(s, j)
    ensures r < |s.handlers| && s.handlers[r].todo == []
    ensures SpecsOf(s.jobs, r) == [HostJob] + Specs(s.handlers[r].asked)
    ensures forall k: JobId :: OfRequest(s, r, k) ==> k !in s.dropped && k in s.db.jobs
    ensures exists h: JobId :: OfRequest(s, r, h) && IsHostJobRow(s.db, r, h)
  {
    hide Enabled, Next;
    var run: Run :| IsRun(c, run) && run.states[|run.states| - 1] == s;
    var n := |run.states| - 1;
    RunBatches(c, run, n);
    RunKeepsInv(c, run, n);
    RunInserted(c, run, n);
    RunAsAsked(c, run, n);
    var p :| Holds(s, p, j) && !p.InHandler? && !p.IsDropped?;
    if s.handlers[r].todo != [] {
      AtMostOnePlace(s, p, InHandler(r), j);
    }
    forall k: JobId | OfRequest(s, r, k) ensures k !in s.dropped {
      if k in s.dropped {
        assert SameRequest(s, k, j);
        AtMostOnePlace(s, p, IsDropped, j);
      }
    }
    assert AsAsked(s, r);
    RunInsertsHost(c, run, n, r, j);
  }

  /** A request with a live job has its host job among its rows. */
  lemma RunInsertsHost(c: Config, run: Run, n: nat, r: RequestId, j: JobId)
    requires IsRun(c, run) && n < |run.states|
    requires OfRequest(run.states[n], r, j) && j !in run.states[n].dropped
    ensures exists h: JobId :: OfRequest(run.states[n], r, h) && IsHostJobRow(run.states[n].db, r, h)
  {
    RunInserted(c, run, n);
    RunKeepsInv(c, run, n);
    RunKeepsActions(c, run, n);
    var s := run.states[n];
    assert s.jobs[j] in s.jobs;
    if s.jobs[j].action == RsviewParse {
      assert HasHostRow(s.db, r);
      var h: JobId :| IsHostJobRow(s.db, r, h);
      assert OfRequest(s, r, h);
    } else {
      assert IsHostJobRow(s.db, r, j);
    }
  }

  /** Every job that was not dropped has its row. */
  ghost predicate Inserted(s: State) {
    forall j :: 0 <= j < |s.jobs| && j !in s.dropped ==> j in s.db.jobs
  }

  lemma StepInserts(c: Config, s: State, a: Action)
    requires Inv(c, s) && Inserted(s) && Enabled(c, s, a)
    ensures Inserted(Next(c, s, a))
  {
    hide Enabled, Next, Inv, WorkStep, WorkerLocal, RoutineLocal;
    StepShape(c, s, a);
    if a.Local? {
      LocalSteps(c, s, a);
      if a.agent.WorkerAgent? {
        WorkerLocalShape(c, s, a.agent.i, a.answer);
        WorkStepKeepsRows(c, s, a.agent.i, a.answer);
      } else {
        RoutineLocalShape(c, s, a.agent.i, a.answer);
      }
    }
  }

  lemma WorkStepKeepsRows(c: Config, s: State, w: WorkerId, a: Answer)
    requires WorkerAsks(s, w, a)
    ensures var j := s.workers[w].mode.job;
            var r := WorkStep(c.maxFails, c.rules, s.db, j, s.jobs[j], s.workers[w].mode.pc, a);
            r.db.jobs.Keys == s.db.jobs.Keys
  {
  }

  lemma {:induction false} RunInserted(c: Config, run: Run, n: nat)
    requires IsRun(c, run) && n < |run.states|
    ensures Inserted(run.states[n])
  {
    hide Enabled, Next, Inv;
    if n > 0 {
      RunInserted(c, run, n - 1);
      RunKeepsInv(c, run, n - 1);
      StepInserts(c, run.states[n - 1], run.actions[n - 1]);
    }
  }
}
