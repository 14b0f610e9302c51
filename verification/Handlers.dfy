// The handler that creates a host: it inserts one job for the host and one for each port,
// and sends them only when all insertions succeeded.
module Handlers {
  import opened Common
  import opened AppErrors
  import opened Jobs
  import opened JobObjects
  import opened Queue
  import opened Requests

  /** The tables after inserting `specs` up to and including the first failure. */
  function InsertAll(db: Db, req: RequestId, j: JobId, specs: seq<JobSpec>, replies: JobId -> Reply): Db
    decreases |specs|
  {
    if specs == [] then db
    else
      var db' := db.InsertJob(j, NewJob(req, specs[0]), replies(j));
      if replies(j).Acked() then InsertAll(db', req, j + 1, specs[1..], replies) else db'
  }

  ghost predicate AllAcked(j: JobId, n: nat, replies: JobId -> Reply) {
    forall k: nat :: j <= k < j + n ==> replies(k).Acked()
  }

  function Ids(j: JobId, n: nat): (ids: seq<JobId>)
    ensures |ids| == n && forall k :: 0 <= k < n ==> ids[k] == j + k
  {
    seq(n, k requires 0 <= k < n => j + k)
  }

  // ---- The handler's steps in the transition system ----

  /** Handler `h` inserts its jobs one after the other. */
  function InsertRun(s: State, h: nat, replies: JobId -> Reply): State
    requires h < |s.handlers|
    decreases |s.handlers[h].todo|
  {
    if s.handlers[h].todo == [] then s else InsertRun(DoInsert(s, h, replies(|s.jobs|)), h, replies)
  }

  /** One insertion, as the handler sees it. */
  lemma InsertOne(s: State, h: nat, reply: Reply)
    requires CanInsert(s, h)
    ensures var s', hd, j := DoInsert(s, h, reply), s.handlers[h], |s.jobs|;
            && |s'.jobs| == j + 1 && h < |s'.handlers|
            && s'.db == s.db.InsertJob(j, NewJob(h, hd.todo[0]), reply)
            && s'.handlers[h] == if reply.Acked() then hd.(todo := hd.todo[1..], ready := hd.ready + [j])
                                 else hd.(todo := [], ready := [])
  {
  }

  /** They leave the tables, and the jobs the handler is ready to send, as the method below does. */
  lemma {:induction false} InsertRunIsInsertAll(s: State, h: nat, replies: JobId -> Reply)
    requires h < |s.handlers|
    ensures var s', todo := InsertRun(s, h, replies), s.handlers[h].todo;
            && s'.db == InsertAll(s.db, h, |s.jobs|, todo, replies)
            && h < |s'.handlers|
            && s'.handlers[h] == s.handlers[h].(
                 todo := [],
                 ready := if AllAcked(|s.jobs|, |todo|, replies) then s.handlers[h].ready + Ids(|s.jobs|, |todo|) else [])
    decreases |s.handlers[h].todo|
  {
    hide DoInsert, NewJob, AllAcked;
    var j, hd := |s.jobs|, s.handlers[h];
    if hd.todo == [] {
      assert hd.ready + Ids(j, 0) == hd.ready;
      AckedFirst(j, 0, replies);
    } else {
      var s1 := DoInsert(s, h, replies(j));
      InsertOne(s, h, replies(j));
      InsertRunIsInsertAll(s1, h, replies);
      AckedFirst(j, |hd.todo|, replies);
      AckedFirst(j, 0, replies);
      if replies(j).Acked() {
        assert hd.ready + [j] + Ids(j + 1, |hd.todo| - 1) == hd.ready + Ids(j, |hd.todo|);
      }
    }
  }

  lemma AckedFirst(j: JobId, n: nat, replies: JobId -> Reply)
    ensures if n == 0 then AllAcked(j, n, replies)
            else AllAcked(j, n, replies) <==> replies(j).Acked() && AllAcked(j + 1, n - 1, replies)
  {
  }

  // ---- The handler itself ----

  /** A port as it was asked for: its MAC address and the error that came of registering it. */
  datatype AskedPort = AskedPort(mac: string, err: Option<ErrorCode>)

  function GoodMacs(asked: seq<AskedPort>): seq<string> {
    if asked == [] then []
    else GoodMacs(asked[..|asked| - 1]) + if asked[|asked| - 1].err == None then [asked[|asked| - 1].mac] else []
  }

  function PortErrors(asked: seq<AskedPort>): seq<ErrorCode> {
    if asked == [] then []
    else PortErrors(asked[..|asked| - 1]) + if asked[|asked| - 1].err.Some? then [asked[|asked| - 1].err.value] else []
  }

  /** How many good ports are asked for before the `k`-th. */
  function GoodBefore(asked: seq<AskedPort>, k: nat): nat
    requires k <= |asked|
  {
    if k == 0 then 0 else GoodBefore(asked, k - 1) + if asked[k - 1].err == None then 1 else 0
  }

  lemma {:induction false} PortsAreSorted(asked: seq<AskedPort>, k: nat)
    requires k <= |asked|
    ensures |GoodMacs(asked[..k])| == GoodBefore(asked, k) && |PortErrors(asked[..k])| == k - GoodBefore(asked, k)
  {
    if k > 0 {
      PortsAreSorted(asked, k - 1);
      assert asked[..k][..k - 1] == asked[..k - 1];
    }
  }

  lemma {:induction false} PortIsKept(asked: seq<AskedPort>, k: nat, n: nat)
    requires k < n <= |asked|
    ensures var i := GoodBefore(asked, k);
            if asked[k].err == None then i < |GoodMacs(asked[..n])| && GoodMacs(asked[..n])[i] == asked[k].mac
            else 0 <= k - i < |PortErrors(asked[..n])| && PortErrors(asked[..n])[k - i] == asked[k].err.value
    decreases n
  {
    PortsAreSorted(asked, k);
    assert asked[..n][..n - 1] == asked[..n - 1];
    if k < n - 1 {
      PortIsKept(asked, k, n - 1);
    }
  }

  /** Every good port has a job of its own for its own MAC address, the jobs being in the order of the
      ports after the host's; every bad port has its own error, in the order of the ports. */
  lemma EveryPortIsAnswered(asked: seq<AskedPort>, k: nat)
    requires k < |asked|
    ensures var i := GoodBefore(asked, k);
            if asked[k].err == None then
              i < |GoodMacs(asked)| && ([HostJob] + Specs(GoodMacs(asked)))[i + 1] == PortJob(asked[k].mac)
            else 0 <= k - i < |PortErrors(asked)| && PortErrors(asked)[k - i] == asked[k].err.value
    ensures |GoodMacs(asked)| == GoodBefore(asked, |asked|) && |PortErrors(asked)| == |asked| - GoodBefore(asked, |asked|)
  {
    assert asked[..|asked|] == asked;
    PortsAreSorted(asked, |asked|);
    PortIsKept(asked, k, |asked|);
  }

  function ActionOf(spec: JobSpec): JobAction {
    if spec.HostJob? then JobAction.HostCreate else RsviewParse
  }

  /** Job `k` was inserted: everything before it was acknowledged, and its own insertion took effect. */
  ghost predicate IsInserted(j: JobId, n: nat, k: JobId, replies: JobId -> Reply) {
    j <= k < j + n && AllAcked(j, k - j, replies) && replies(k).Applied()
  }

  /** The insertions leave one row for each job that was inserted, freshly created under the request,
      and nothing else is changed. */
  lemma {:induction false} InsertAllRows(db: Db, req: RequestId, j: JobId, specs: seq<JobSpec>, replies: JobId -> Reply)
    requires forall k <- db.jobs :: k < j
    ensures var after := InsertAll(db, req, j, specs, replies);
            && after.hosts == db.hosts && after.links == db.links && after.errorRows == db.errorRows
            && (forall k: JobId :: k in after.jobs <==> k in db.jobs || IsInserted(j, |specs|, k, replies))
            && (forall k <- after.jobs :: after.jobs[k] ==
                  if k in db.jobs then db.jobs[k] else JobRow(req, ActionOf(specs[k - j]), Created, false))
    decreases |specs|
  {
    if specs != [] {
      var db' := db.InsertJob(j, NewJob(req, specs[0]), replies(j));
      forall k: JobId
        ensures IsInserted(j, |specs|, k, replies) <==>
                (k == j && replies(j).Applied()) || (replies(j).Acked() && IsInserted(j + 1, |specs| - 1, k, replies))
      {
        if k > j {
          AckedFirst(j, k - j, replies);
        }
      }
      if replies(j).Acked() {
        InsertAllRows(db', req, j + 1, specs[1..], replies);
      }
    }
  }

  method InsertJobs(req: RequestId, j: JobId, specs: seq<JobSpec>, db: Database, replies: JobId -> Reply)
    returns (ready: seq<JobId>, ok: bool)
    modifies db
    ensures db.rows == InsertAll(old(db.rows), req, j, specs, replies)
    ensures ok <==> AllAcked(j, |specs|, replies)
    ensures ok ==> ready == Ids(j, |specs|)
  {
    ready := [];
    ghost var end := InsertAll(db.rows, req, j, specs, replies);
    for i := 0 to |specs|
      invariant ready == Ids(j, i)
      invariant AllAcked(j, i, replies)
      invariant end == InsertAll(db.rows, req, j + i, specs[i..], replies)
    {
      assert specs[i..][0] == specs[i] && specs[i..][1..] == specs[i + 1..];
      var reply := replies(j + i);
      db.rows := db.rows.InsertJob(j + i, NewJob(req, specs[i]), reply);
      if !reply.Acked() {
        return ready, false;
      }
      ready := ready + [j + i];
    }
    return ready, true;
  }

  method RegisterPorts(request: HttpRequest, asked: seq<AskedPort>) returns (macs: seq<string>)
    modifies request`errors
    ensures macs == GoodMacs(asked)
    ensures request.errors == old(request.errors) + PortErrors(asked)
  {
    macs := [];
    for i := 0 to |asked|
      invariant macs == GoodMacs(asked[..i])
      invariant request.errors == old(request.errors) + PortErrors(asked[..i])
    {
      assert asked[..i + 1][..i] == asked[..i];
      if asked[i].err.Some? {
        request.AppendAppError(asked[i].err.value);
      } else {
        macs := macs + [asked[i].mac];
      }
    }
    assert asked[..|asked|] == asked;
  }

  method SendJobs(ready: seq<JobId>, chan: JobChannel)
    modifies chan
    ensures chan.sent == old(chan.sent) + ready
  {
    for i := 0 to |ready|
      invariant chan.sent == old(chan.sent) + ready[..i]
    {
      chan.Send(ready[i]);
    }
    assert ready[..|ready|] == ready;
  }

  /** The jobs that get sent: all of them or none. */
  ghost function Sent(asked: seq<AskedPort>, j: JobId, replies: JobId -> Reply): Option<seq<JobId>> {
    var n := |GoodMacs(asked)| + 1;
    if GoodMacs(asked) != [] && AllAcked(j, n, replies) then Some(Ids(j, n)) else None
  }

  ghost function CreateErrors(asked: seq<AskedPort>, j: JobId, replies: JobId -> Reply): seq<ErrorCode> {
    PortErrors(asked) +
    if GoodMacs(asked) != [] && Sent(asked, j, replies) == None then [InternalCommonError] else []
  }

  method HostCreate(request: HttpRequest, req: RequestId, j: JobId, asked: seq<AskedPort>, db: Database, chan: JobChannel,
                    replies: JobId -> Reply, saves: nat -> bool)
    returns (r: Response<seq<JobId>>)
    modifies request, db, chan
    ensures db.rows == if GoodMacs(asked) == [] then old(db.rows)
                       else InsertAll(old(db.rows), req, j, [HostJob] + Specs(GoodMacs(asked)), replies)
    ensures var sent := Sent(asked, j, replies);
            && chan.sent == old(chan.sent) + (if sent.Some? then sent.value else [])
            && r == Respond(sent, if sent.Some? then 201 else 0, old(request.status),
                            AfterSaving(old(request.errors) + CreateErrors(asked, j, replies), saves))
  {
    var macs := RegisterPorts(request, asked);
    if |macs| == 0 {
      assert old(request.errors) + CreateErrors(asked, j, replies) == request.errors;
      r := request.RespondJson(None, 0, saves);
      return;
    }
    var ready, ok := InsertJobs(req, j, [HostJob] + Specs(macs), db, replies);
    if !ok {
      request.AppendAppError(InternalCommonError);
      assert old(request.errors) + CreateErrors(asked, j, replies) == request.errors;
      r := request.RespondJson(None, 0, saves);
      return;
    }
    SendJobs(ready, chan);
    assert old(request.errors) + CreateErrors(asked, j, replies) == request.errors;
    r := request.RespondJson(Some(ready), 201, saves);
  }

  /** For a request without earlier errors: the client is told of the jobs exactly when they were
      sent and no port was bad. With a bad port among good ones the jobs run, although the
      response carries errors only. */
  lemma BadPortHidesJobs(asked: seq<AskedPort>, j: JobId, replies: JobId -> Reply, saves: nat -> bool)
    requires asked != [] && NotError !in PortErrors(asked)
    ensures var sent := Sent(asked, j, replies);
            var errors := AfterSaving(CreateErrors(asked, j, replies), saves);
            var r := Respond(sent, if sent.Some? then 201 else 0, 200, errors);
            && (r.data.Some? <==> sent.Some? && PortErrors(asked) == [])
            && (r.data.Some? ==> r.status == 201 && r.data == sent && |sent.value| == |asked| + 1)
            && (r.data.None? ==> r.status >= 400 && PortErrors(asked) <= r.errors)
  {
    var sent, given := Sent(asked, j, replies), CreateErrors(asked, j, replies);
    GoodAndBad(asked);
    if given != [] {
      ErrorsShow(sent, if sent.Some? then 201 else 0, given, saves);
      assert PortErrors(asked) <= given;
    } else {
      DataOnlyWithoutErrors(sent.value, 201, given, saves);
    }
  }

  lemma ErrorsShow<T>(data: Option<T>, requested: nat, given: seq<ErrorCode>, saves: nat -> bool)
    requires NotError !in given && given != [] && requested <= 201
    ensures var errors := AfterSaving(given, saves);
            var r := Respond(data, requested, 200, errors);
            given <= errors && r.status >= 400 && r.data == None
  {
    var errors := AfterSaving(given, saves);
    WorstStatusIsMaximum(errors);
    assert given[0] in errors;
    RealErrorsAreAtLeast400(given[0]);
  }

  lemma {:induction false} GoodAndBad(asked: seq<AskedPort>)
    ensures |GoodMacs(asked)| + |PortErrors(asked)| == |asked|
  {
    if asked != [] {
      GoodAndBad(asked[..|asked| - 1]);
    }
  }
}
