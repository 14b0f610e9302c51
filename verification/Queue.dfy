// The job queue as a transition system: HTTP handlers that create and send jobs,
// the buffered job channel, the dispatcher and the goroutines it starts, the pool
// of worker inboxes, the variable nextWorker that all those goroutines share, and
// the workers. Shutdown is not modelled.
//
// An action names who moves and what the outside answered, so that the next state
// is a function of the state and the action.
module Queue {
  import opened Common
  import opened AppErrors
  import opened Rsview
  import opened Ports
  import opened Jobs
  import opened Sums

  type WorkerId = nat

  datatype Config = Config(workers: nat, capacity: nat, buffer: nat, maxFails: int, rules: AllowRules)

  datatype JobSpec = HostJob | PortJob(mac: string)

  /** An HTTP handler creating a host with ports of the MAC addresses `asked`. `todo` are the
      jobs it has yet to insert, `ready` the inserted ones it has yet to send. Handler i serves
      request i. */
  datatype Handler = Handler(asked: seq<string>, todo: seq<JobSpec>, ready: seq<JobId>)

  /** Where a goroutine started by the dispatcher is. `Refused` means that its first write
      failed and it is about to append the error. Between `GotToken` and `Stored` it
      assigns the inbox it received to the shared variable, between `Stored` and `Bound`
      it reads that variable back. */
  datatype RoutinePc =
    | WritePending
    | Refused
    | AwaitToken
    | GotToken(token: WorkerId)
    | Stored
    | Bound(target: WorkerId)
    | Erring(f: FailPc)
    | Ended

  datatype Routine = Routine(job: JobId, pc: RoutinePc)

  datatype Mode = Announcing | Waiting | Executing(job: JobId, pc: WorkPc)

  datatype Worker = Worker(inbox: seq<JobId>, mode: Mode)

  /** `jobs` is the heap of job objects. `retired` are the jobs no goroutine will touch
      again, `dropped` those whose handler gave up before sending any. */
  datatype State = State(
    jobs: seq<Job>,
    db: Db,
    handlers: seq<Handler>,
    jobQueue: seq<JobId>,
    routines: seq<Routine>,
    pool: seq<WorkerId>,
    nextWorker: Option<WorkerId>,
    workers: seq<Worker>,
    retired: seq<JobId>,
    dropped: seq<JobId>,
    crashed: bool)

  function Init(c: Config): State {
    State([], Db(map[], {}, map[], map[]), [], [], [], [], None,
          seq(c.workers, _ => Worker([], Announcing)), [], [], false)
  }

  /** Whoever can hold a job and move it. */
  datatype Agent = HandlerAgent(i: nat) | RoutineAgent(i: nat) | WorkerAgent(i: nat)

  datatype Action =
    | NewRequest(macs: seq<string>)
    | Insert(h: nat, reply: Reply)
    | Send(agent: Agent)
    | Handoff(agent: Agent)
    | Dispatch
    | Local(agent: Agent, answer: Answer)
    | Announce(w: WorkerId)
    | TakeToken(r: nat)
    | Meet(w: WorkerId, r: nat)
    | Store(r: nat)
    | Bind(r: nat)
    | Deliver(r: nat)
    | DeliverDirect(r: nat)
    | Receive(w: WorkerId)

  // ---- When a goroutine is at a given point ----

  predicate IsRoutine(s: State, r: nat) {
    r < |s.routines|
  }

  predicate CanSend(s: State, a: Agent) {
    match a
    case HandlerAgent(i) => i < |s.handlers| && s.handlers[i].todo == [] && s.handlers[i].ready != []
    case RoutineAgent(i) => i < |s.routines| && s.routines[i].pc == Erring(Requeue)
    case WorkerAgent(i) => i < |s.workers| && s.workers[i].mode.Executing? && s.workers[i].mode.pc == Failing(Requeue)
  }

  predicate AwaitsToken(s: State, r: nat) {
    r < |s.routines| && s.routines[r].pc == AwaitToken
  }

  predicate IsAnnouncing(s: State, w: nat) {
    w < |s.workers| && s.workers[w].mode == Announcing
  }

  predicate IsBound(s: State, r: nat) {
    r < |s.routines| && s.routines[r].pc.Bound? && s.routines[r].pc.target < |s.workers|
  }

  predicate CanReceive(s: State, w: nat) {
    w < |s.workers| && s.workers[w].mode == Waiting && s.workers[w].inbox != []
  }

  // ---- Channel operations ----

  function Carried(s: State, a: Agent): JobId
    requires CanSend(s, a)
  {
    match a
    case HandlerAgent(i) => s.handlers[i].ready[0]
    case RoutineAgent(i) => s.routines[i].job
    case WorkerAgent(i) => s.workers[i].mode.job
  }

  /** The sender has handed its job on and goes its way. */
  function Released(s: State, a: Agent): State
    requires CanSend(s, a)
  {
    match a
    case HandlerAgent(i) => s.(handlers := s.handlers[i := s.handlers[i].(ready := s.handlers[i].ready[1..])])
    case RoutineAgent(i) => s.(routines := s.routines[i := s.routines[i].(pc := Ended)])
    case WorkerAgent(i) => s.(workers := s.workers[i := s.workers[i].(mode := Announcing)])
  }

  function DoSend(s: State, a: Agent): State
    requires CanSend(s, a)
  {
    Released(s, a).(jobQueue := s.jobQueue + [Carried(s, a)])
  }

  function DoDispatch(s: State): State
    requires s.jobQueue != []
  {
    s.(jobQueue := s.jobQueue[1..], routines := s.routines + [Routine(s.jobQueue[0], WritePending)])
  }

  function DoAnnounce(s: State, w: WorkerId): State
    requires IsAnnouncing(s, w)
  {
    s.(pool := s.pool + [w], workers := s.workers[w := s.workers[w].(mode := Waiting)])
  }

  function WithPc(s: State, r: nat, pc: RoutinePc): State
    requires IsRoutine(s, r)
  {
    s.(routines := s.routines[r := s.routines[r].(pc := pc)])
  }

  function DoTake(s: State, r: nat): State
    requires AwaitsToken(s, r) && s.pool != []
  {
    WithPc(s, r, GotToken(s.pool[0])).(pool := s.pool[1..])
  }

  function DoStore(s: State, r: nat): State
    requires IsRoutine(s, r) && s.routines[r].pc.GotToken?
  {
    WithPc(s, r, Stored).(nextWorker := Some(s.routines[r].pc.token))
  }

  function DoBind(s: State, r: nat): State
    requires IsRoutine(s, r) && s.routines[r].pc == Stored && s.nextWorker.Some?
  {
    WithPc(s, r, Bound(s.nextWorker.value))
  }

  function DoDeliver(s: State, r: nat): State
    requires IsBound(s, r)
  {
    var w := s.routines[r].pc.target;
    WithPc(s, r, Ended).(workers := s.workers[w := s.workers[w].(inbox := s.workers[w].inbox + [s.routines[r].job])])
  }

  function DoReceive(s: State, w: WorkerId): State
    requires CanReceive(s, w) && s.workers[w].inbox[0] < |s.jobs|
  {
    var j := s.workers[w].inbox[0];
    s.(workers := s.workers[w := Worker(s.workers[w].inbox[1..], Executing(j, FirstPc(s.jobs[j].action)))])
  }

  // ---- Handlers ----

  function Specs(macs: seq<string>): (specs: seq<JobSpec>)
    ensures |specs| == |macs|
    ensures forall i :: 0 <= i < |macs| ==> specs[i] == PortJob(macs[i])
  {
    seq(|macs|, i requires 0 <= i < |macs| => PortJob(macs[i]))
  }

  function DoNewRequest(s: State, macs: seq<string>): State {
    s.(handlers := s.handlers + [Handler(macs, [HostJob] + Specs(macs), [])])
  }

  function NewJob(req: RequestId, spec: JobSpec): Job {
    match spec
    case HostJob => Job(req, HostCreate, Created, false, [], FreshPort(""))
    case PortJob(mac) => Job(req, RsviewParse, Created, false, [], FreshPort(mac))
  }

  predicate CanInsert(s: State, h: nat) {
    h < |s.handlers| && s.handlers[h].todo != []
  }

  /** newQueueJob: the handler gives up on the whole request at the first failure. */
  function DoInsert(s: State, h: nat, reply: Reply): State
    requires CanInsert(s, h)
  {
    var j := |s.jobs|;
    var hd := s.handlers[h];
    var job := NewJob(h, hd.todo[0]);
    var s' := s.(jobs := s.jobs + [job], db := s.db.InsertJob(j, job, reply));
    if reply.Acked() then
      s'.(handlers := s.handlers[h := hd.(todo := hd.todo[1..], ready := hd.ready + [j])])
    else
      s'.(handlers := s.handlers[h := hd.(todo := [], ready := [])], dropped := s.dropped + hd.ready + [j])
  }

  // ---- Local steps: a goroutine's call to the outside ----

  predicate RoutineAsks(s: State, r: nat, a: Answer) {
    && IsRoutine(s, r)
    && s.routines[r].job < |s.jobs|
    && match s.routines[r].pc
       case WritePending => a.Wrote?
       case Refused => a.Nothing?
       case Erring(f) => a.Wrote? && !f.Requeue? && (f.SaveError? ==> f.k < |s.jobs[s.routines[r].job].errors|)
       case _ => false
  }

  function RoutineLocal(c: Config, s: State, r: nat, a: Answer): State
    requires RoutineAsks(s, r, a)
  {
    var j := s.routines[r].job;
    if s.routines[r].pc == WritePending then
      WithPc(s, r, if a.reply.Acked() then AwaitToken else Refused).(
        db := s.db.WriteState(j, Pending, a.reply),
        jobs := s.jobs[j := s.jobs[j].(state := Pending)])
    else if s.routines[r].pc == Refused then
      var failed := AppendAppError(c.maxFails, s.jobs[j], InternalSqlError);
      WithPc(s, r, Erring(AfterAppend(c.maxFails, failed))).(jobs := s.jobs[j := failed])
    else
      var (db', next) := FailStep(s.db, j, s.jobs[j], s.routines[r].pc.f, a.reply);
      if next.Some? then WithPc(s, r, Erring(next.value)).(db := db')
      else WithPc(s, r, Ended).(db := db', retired := s.retired + [j])
  }

  ghost predicate WorkerAsks(s: State, w: WorkerId, a: Answer) {
    && w < |s.workers|
    && s.workers[w].mode.Executing?
    && s.workers[w].mode.job < |s.jobs|
    && Possible(s.db, s.workers[w].mode.job, s.jobs[s.workers[w].mode.job], s.workers[w].mode.pc, a)
  }

  ghost function WorkerLocal(c: Config, s: State, w: WorkerId, a: Answer): State
    requires WorkerAsks(s, w, a)
  {
    var j := s.workers[w].mode.job;
    var r := WorkStep(c.maxFails, c.rules, s.db, j, s.jobs[j], s.workers[w].mode.pc, a);
    var s' := s.(db := r.db, jobs := s.jobs[j := r.job]);
    match r.next
    case Continue(pc) => s'.(workers := s.workers[w := s.workers[w].(mode := Executing(j, pc))])
    case Return => s'.(workers := s.workers[w := s.workers[w].(mode := Announcing)], retired := s.retired + [j])
    case Crash => s'.(crashed := true)
  }

  // ---- The transition system ----

  /** When an action can happen. A send needs room in the buffer, or an empty buffer and
      a receiver that waits: the rendezvous actions Handoff, Meet and DeliverDirect. */
  ghost predicate Enabled(c: Config, s: State, a: Action) {
    && !s.crashed
    && match a
       case NewRequest(macs) => macs != []
       case Insert(h, _) => CanInsert(s, h)
       case Send(x) => CanSend(s, x) && |s.jobQueue| < c.buffer
       case Handoff(x) => CanSend(s, x) && s.jobQueue == []
       case Dispatch => s.jobQueue != []
       case Local(RoutineAgent(r), ans) => RoutineAsks(s, r, ans)
       case Local(WorkerAgent(w), ans) => WorkerAsks(s, w, ans)
       case Local(HandlerAgent(_), _) => false
       case Announce(w) => IsAnnouncing(s, w) && |s.pool| < c.capacity
       case TakeToken(r) => AwaitsToken(s, r) && s.pool != []
       case Meet(w, r) => IsAnnouncing(s, w) && AwaitsToken(s, r) && s.pool == []
       case Store(r) => IsRoutine(s, r) && s.routines[r].pc.GotToken?
       case Bind(r) => IsRoutine(s, r) && s.routines[r].pc == Stored && s.nextWorker.Some?
       case Deliver(r) => IsBound(s, r) && |s.workers[s.routines[r].pc.target].inbox| < c.capacity
       case DeliverDirect(r) =>
         && IsBound(s, r) && s.routines[r].job < |s.jobs|
         && s.workers[s.routines[r].pc.target] == Worker([], Waiting)
       case Receive(w) => CanReceive(s, w) && s.workers[w].inbox[0] < |s.jobs|
  }

  ghost function Next(c: Config, s: State, a: Action): State
    requires Enabled(c, s, a)
  {
    match a
    case NewRequest(macs) => DoNewRequest(s, macs)
    case Insert(h, reply) => DoInsert(s, h, reply)
    case Send(x) => DoSend(s, x)
    case Handoff(x) => DoDispatch(DoSend(s, x))
    case Dispatch => DoDispatch(s)
    case Local(RoutineAgent(r), ans) => RoutineLocal(c, s, r, ans)
    case Local(WorkerAgent(w), ans) => WorkerLocal(c, s, w, ans)
    case Announce(w) => DoAnnounce(s, w)
    case TakeToken(r) => DoTake(s, r)
    case Meet(w, r) => DoTake(DoAnnounce(s, w), r)
    case Store(r) => DoStore(s, r)
    case Bind(r) => DoBind(s, r)
    case Deliver(r) => DoDeliver(s, r)
    case DeliverDirect(r) => DoReceive(DoDeliver(s, r), s.routines[r].pc.target)
    case Receive(w) => DoReceive(s, w)
  }

  /** A local step is one of a dispatch goroutine or of a worker. */
  lemma LocalSteps(c: Config, s: State, a: Action)
    requires Enabled(c, s, a) && a.Local?
    ensures match a.agent
            case RoutineAgent(r) => RoutineAsks(s, r, a.answer) && Next(c, s, a) == RoutineLocal(c, s, r, a.answer)
            case WorkerAgent(w) => WorkerAsks(s, w, a.answer) && Next(c, s, a) == WorkerLocal(c, s, w, a.answer)
            case HandlerAgent(_) => false
  {
  }

  /** What a goroutine's own step can change at all. */
  lemma RoutineLocalShape(c: Config, s: State, r: nat, a: Answer)
    requires RoutineAsks(s, r, a)
    ensures var s', j := RoutineLocal(c, s, r, a), s.routines[r].job;
            && |s'.jobs| == |s.jobs| && (forall i :: 0 <= i < |s.jobs| && i != j ==> s'.jobs[i] == s.jobs[i])
            && s'.jobs[j] == s.jobs[j].(state := s'.jobs[j].state, isFailed := s'.jobs[j].isFailed, errors := s'.jobs[j].errors)
            && s'.handlers == s.handlers && s'.dropped == s.dropped && s'.jobQueue == s.jobQueue
            && s'.workers == s.workers && s'.pool == s.pool && s'.nextWorker == s.nextWorker
            && s'.retired == (if s'.routines[r].pc.Ended? then s.retired + [j] else s.retired)
            && |s'.routines| == |s.routines| && (forall i :: 0 <= i < |s.routines| && i != r ==> s'.routines[i] == s.routines[i])
            && s'.routines[r].job == j && s'.db.hosts == s.db.hosts && s'.db.links == s.db.links
            && s'.db.jobs.Keys == s.db.jobs.Keys
            && (s'.routines[r].pc.AwaitToken? || s'.routines[r].pc.Refused? || s'.routines[r].pc.Erring? || s'.routines[r].pc.Ended?)
  {
    hide FailStep;
    var j, pc := s.routines[r].job, s.routines[r].pc;
    if pc.Erring? {
      FailStepShape(s.db, j, s.jobs[j], pc.f, a.reply);
    }
  }

  /** What a worker's own step can change at all. */
  lemma WorkerLocalShape(c: Config, s: State, w: WorkerId, a: Answer)
    requires WorkerAsks(s, w, a)
    ensures var s', j := WorkerLocal(c, s, w, a), s.workers[w].mode.job;
            var r := WorkStep(c.maxFails, c.rules, s.db, j, s.jobs[j], s.workers[w].mode.pc, a);
            && s'.jobs == s.jobs[j := r.job] && s'.db == r.db
            && s'.handlers == s.handlers && s'.dropped == s.dropped && s'.jobQueue == s.jobQueue
            && s'.retired == (if r.next.Return? then s.retired + [j] else s.retired)
            && s'.crashed == (s.crashed || r.next.Crash?)
            && s'.routines == s.routines && s'.pool == s.pool && s'.nextWorker == s.nextWorker
            && |s'.workers| == |s.workers| && (forall i :: 0 <= i < |s.workers| && i != w ==> s'.workers[i] == s.workers[i])
            && s'.workers[w].inbox == s.workers[w].inbox
            && s'.workers[w].mode == (match r.next
                                      case Continue(pc) => Executing(j, pc)
                                      case Return => Announcing
                                      case Crash => s.workers[w].mode)
  {
    hide WorkStep, Possible;
  }

  /** Only insertions and local steps concern the jobs and the tables. */
  lemma StepShape(c: Config, s: State, a: Action)
    requires Enabled(c, s, a)
    ensures a.NewRequest? ==> Next(c, s, a) == DoNewRequest(s, a.macs)
    ensures a.Insert? ==> CanInsert(s, a.h) && Next(c, s, a) == DoInsert(s, a.h, a.reply)
    ensures !a.Insert? && !a.Local? ==>
              var s' := Next(c, s, a); s'.jobs == s.jobs && s'.db == s.db && s'.dropped == s.dropped && s'.retired == s.retired
    ensures |Next(c, s, a).handlers| == |s.handlers| + if a.NewRequest? then 1 else 0
  {
    hide RoutineLocal, WorkerLocal, RoutineAsks, WorkerAsks, WorkStep;
    if a.Local? {
      LocalSteps(c, s, a);
      if a.agent.WorkerAgent? {
        WorkerLocalShape(c, s, a.agent.i, a.answer);
      } else {
        RoutineLocalShape(c, s, a.agent.i, a.answer);
      }
    }
  }

  /** Everything but a new request from outside. */
  predicate IsSystem(a: Action) {
    !a.NewRequest?
  }

  /** A step of the dispatcher, a dispatch goroutine or a worker: no handler has a part in it. */
  predicate IsQueueStep(a: Action) {
    match a
    case NewRequest(_) => false
    case Insert(_, _) => false
    case Send(x) => !x.HandlerAgent?
    case Handoff(x) => !x.HandlerAgent?
    case _ => true
  }

  /** Announcing, taking, storing and reading back a token. */
  predicate IsTokenStep(a: Action) {
    a.Announce? || a.TakeToken? || a.Meet? || a.Store? || a.Bind?
  }

  // ---- Runs ----

  datatype Run = Run(states: seq<State>, actions: seq<Action>)

  ghost predicate IsRun(c: Config, run: Run) {
    && |run.states| == |run.actions| + 1
    && run.states[0] == Init(c)
    && forall i :: 0 <= i < |run.actions| ==>
         Enabled(c, run.states[i], run.actions[i]) && run.states[i + 1] == Next(c, run.states[i], run.actions[i])
  }

  ghost predicate Reachable(c: Config, s: State) {
    exists run: Run :: IsRun(c, run) && run.states[|run.states| - 1] == s
  }

  /** The run is long enough for `n` steps. */
  ghost predicate HasSteps(run: Run, n: nat) {
    |run.states| == |run.actions| + 1 && n <= |run.actions|
  }

  lemma RunStep(c: Config, run: Run, n: nat)
    requires IsRun(c, run) && n < |run.actions|
    ensures n + 1 < |run.states|
    ensures Enabled(c, run.states[n], run.actions[n])
    ensures run.states[n + 1] == Next(c, run.states[n], run.actions[n])
  {
    hide Enabled, Next;
  }

  lemma InitIsReachable(c: Config)
    ensures Reachable(c, Init(c))
  {
    assert IsRun(c, Run([Init(c)], []));
  }

  lemma NextIsReachable(c: Config, s: State, a: Action)
    requires Reachable(c, s) && Enabled(c, s, a)
    ensures Reachable(c, Next(c, s, a))
  {
    hide Enabled, Next;
    var run: Run :| IsRun(c, run) && run.states[|run.states| - 1] == s;
    var longer := Run(run.states + [Next(c, s, a)], run.actions + [a]);
    assert IsRun(c, longer);
    assert longer.states[|longer.states| - 1] == Next(c, s, a);
  }
}
