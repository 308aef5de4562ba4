/** DISCOCheck: the monitor that polls the request manager until an asynchronous snapshot,
    restore or clone job resolves to success, failure or timeout. */
module DiscoCheck {
  import opened DiscoTypes
  import opened DiscoEnv

  /** The three operations a monitor can follow. */
  datatype Kind = SnapshotDetailKind | RestoreDetailKind | CloneDetailKind

  /** The operation name the driver hands to the monitor for each kind. */
  function OperationName(k: Kind): string
  {
    match k
    case SnapshotDetailKind => "snapshot_detail"
    case RestoreDetailKind => "restore_detail"
    case CloneDetailKind => "clone_detail"
  }

  /** The kind an operation name stands for; None for any other name. */
  function KindOf(operation: string): (r: Option<Kind>)
    ensures r.Some? ==> OperationName(r.value) == operation
    ensures forall k :: OperationName(k) == operation ==> r == Some(k)
  {
    if operation == "snapshot_detail" then Some(SnapshotDetailKind)
    else if operation == "restore_detail" then Some(RestoreDetailKind)
    else if operation == "clone_detail" then Some(CloneDetailKind)
    else None
  }

  /** The parameter keys the detail query of a kind reads, in the order it reads them. */
  function ParamKeys(k: Kind): seq<string>
  {
    match k
    case SnapshotDetailKind => ["snapshot_id"]
    case RestoreDetailKind => ["restore_id"]
    case CloneDetailKind => ["clone_id", "vol_name"]
  }

  /** The kind of a detail query; None for the other requests. */
  function DetailKind(q: Request): Option<Kind>
  {
    match q
    case SnapshotDetail(_) => Some(SnapshotDetailKind)
    case RestoreDetail(_) => Some(RestoreDetailKind)
    case CloneDetail(_, _) => Some(CloneDetailKind)
    case _ => None
  }

  /** The arguments of a detail query. */
  function DetailArgs(q: Request): seq<Value>
  {
    match q
    case SnapshotDetail(id) => [id]
    case RestoreDetail(id) => [id]
    case CloneDetail(id, name) => [id, name]
    case _ => []
  }

  /** `_call_api`: the detail query an operation issues, built from the parameter dictionary.
      An unknown operation or a missing parameter raises before the client is called. */
  function CallApi(operation: string, params: map<string, Value>): (r: Result<Request, Error>)
    ensures KindOf(operation).None? ==> r == Err(UnknownOperation(operation))
    ensures r.Ok? <==>
      KindOf(operation).Some? && forall key :: key in ParamKeys(KindOf(operation).value) ==> key in params
    ensures r.Ok? ==> DetailKind(r.value) == KindOf(operation)
    ensures r.Ok? ==>
      var keys := ParamKeys(KindOf(operation).value);
      |DetailArgs(r.value)| == |keys| &&
      forall i :: 0 <= i < |keys| ==> keys[i] in params && DetailArgs(r.value)[i] == params[keys[i]]
    ensures r.Err? && KindOf(operation).Some? ==>
      r.error.MissingKey? && r.error.key in ParamKeys(KindOf(operation).value) && r.error.key !in params
  {
    match KindOf(operation)
    case None => Err(UnknownOperation(operation))
    case Some(SnapshotDetailKind) =>
      if "snapshot_id" in params then Ok(SnapshotDetail(params["snapshot_id"]))
      else Err(MissingKey("snapshot_id"))
    case Some(RestoreDetailKind) =>
      if "restore_id" in params then Ok(RestoreDetail(params["restore_id"]))
      else Err(MissingKey("restore_id"))
    case Some(CloneDetailKind) =>
      if "clone_id" !in params then Err(MissingKey("clone_id"))
      else if "vol_name" !in params then Err(MissingKey("vol_name"))
      else Ok(CloneDetail(params["clone_id"], params["vol_name"]))
  }

  /** `_get_item_status`: the progress status of the job, read from the field its kind uses:
      the nested `snapshotInfoResult.status`, the nested `restoreInfoResult.status`, or the
      top-level `result` converted by int() for a clone. */
  function ItemStatus(operation: string, reply: Option<Reply>): (r: Result<Value, Error>)
    ensures reply.None? ==> r == Err(NoneReply)
    ensures reply.Some? && KindOf(operation).None? ==> r == Err(UnknownOperation(operation))
    ensures reply.Some? && KindOf(operation) == Some(SnapshotDetailKind) ==>
      (r.Ok? <==> reply.value.snapshotInfoResult.Some? && reply.value.snapshotInfoResult.value.status.Some?) &&
      (r.Ok? ==> reply.value.snapshotInfoResult == Some(InfoResult(Some(r.value))))
    ensures reply.Some? && KindOf(operation) == Some(RestoreDetailKind) ==>
      (r.Ok? <==> reply.value.restoreInfoResult.Some? && reply.value.restoreInfoResult.value.status.Some?) &&
      (r.Ok? ==> reply.value.restoreInfoResult == Some(InfoResult(Some(r.value))))
    ensures reply.Some? && KindOf(operation) == Some(CloneDetailKind) ==>
      (r.Ok? <==> reply.value.result.Some? && reply.value.result.value.Num?) &&
      (r.Ok? ==> reply.value.result == Some(r.value))
    ensures reply.Some? && KindOf(operation).Some? && r.Err? ==> r.error.MissingKey? || r.error.NotAnInteger?
  {
    if reply.None? then Err(NoneReply)
    else
      match KindOf(operation)
      case Some(SnapshotDetailKind) =>
        (match reply.value.snapshotInfoResult
         case None => Err(MissingKey("snapshotInfoResult"))
         case Some(info) => if info.status.Some? then Ok(info.status.value) else Err(MissingKey("status")))
      case Some(RestoreDetailKind) =>
        (match reply.value.restoreInfoResult
         case None => Err(MissingKey("restoreInfoResult"))
         case Some(info) => if info.status.Some? then Ok(info.status.value) else Err(MissingKey("status")))
      case Some(CloneDetailKind) =>
        (match reply.value.result
         case None => Err(MissingKey("result"))
         case Some(v) =>
           match ToInt(v)
           case Ok(n) => Ok(Num(n))
           case Err(e) => Err(e))
      case None => Err(UnknownOperation(operation))
  }

  /** What one iteration of the monitor does next: poll again, stop with the reply, or raise. */
  datatype StepOutcome = Continue | Done(reply: Reply) | Raise(error: Error)

  /** The part of an iteration decided by the reply alone; Pending means the timeout is checked. */
  datatype Verdict = Resolved(step: StepOutcome) | Pending

  /** The reply is a dictionary whose transport `status` is present and false. */
  predicate TransportOk(reply: Option<Reply>)
  {
    reply.Some? && reply.value.status.Some? && !Truthy(reply.value.status.value)
  }

  /** The checks of `_retry_get_detail` that precede the clock: the transport status first,
      then the item status, with request.failure tested before request.success. */
  function Assess(operation: string, reply: Option<Reply>): (v: Verdict)
    ensures v.Resolved? ==> !v.step.Continue? && !(v.step.Raise? && v.step.error.OperationTimedOut?)
    ensures reply.None? ==> v == Resolved(Raise(NoneSubscripted))
    ensures reply.Some? && reply.value.status.Some? && Truthy(reply.value.status.value) ==>
      v == Resolved(Raise(DetailQueryFailed(operation, reply.value.status.value)))
    ensures v.Pending? || v.step.Done? ==> TransportOk(reply)
    ensures (v.Resolved? && v.step.Done?) <==>
      TransportOk(reply) && ItemStatus(operation, reply) == Ok(Num(RequestSuccess))
    ensures v.Resolved? && v.step.Done? ==> reply == Some(v.step.reply)
    ensures TransportOk(reply) && ItemStatus(operation, reply) == Ok(Num(RequestFailure)) ==>
      v == Resolved(Raise(OperationFailed(operation, reply.value.status.value)))
    ensures reply.Some? && reply.value.status.None? ==> v == Resolved(Raise(MissingKey("status")))
    ensures TransportOk(reply) && ItemStatus(operation, reply).Err? ==>
      v == Resolved(Raise(ItemStatus(operation, reply).error))
    ensures v.Resolved? && v.step.Raise? && v.step.error.OperationFailed? ==>
      TransportOk(reply) && ItemStatus(operation, reply) == Ok(Num(RequestFailure))
    ensures v.Pending? <==>
      TransportOk(reply) && ItemStatus(operation, reply).Ok? &&
      ItemStatus(operation, reply).value != Num(RequestSuccess) &&
      ItemStatus(operation, reply).value != Num(RequestFailure)
  {
    if reply.None? then Resolved(Raise(NoneSubscripted))
    else if reply.value.status.None? then Resolved(Raise(MissingKey("status")))
    else if Truthy(reply.value.status.value) then
      Resolved(Raise(DetailQueryFailed(operation, reply.value.status.value)))
    else
      match ItemStatus(operation, reply)
      case Err(e) => Resolved(Raise(e))
      case Ok(s) =>
        if s == Num(RequestFailure) then Resolved(Raise(OperationFailed(operation, reply.value.status.value)))
        else if s == Num(RequestSuccess) then Resolved(Done(reply.value))
        else Pending
  }

  /** `is_timeout` with the clock reading passed in: strictly more than `timeout` seconds
      have passed since `startTime`. */
  function IsTimeout(startTime: int, timeout: int, now: int): (r: bool)
    ensures r <==> startTime + timeout < now
  {
    now - startTime > timeout
  }

  /** The decision of one `_retry_get_detail` iteration, given the reply to its query and the
      clock reading it takes when it reaches the timeout check. */
  function Interpret(operation: string, reply: Option<Reply>, startTime: int, timeout: int, now: int): (s: StepOutcome)
    ensures Assess(operation, reply).Resolved? ==> s == Assess(operation, reply).step
    ensures s.Continue? <==> Assess(operation, reply).Pending? && !IsTimeout(startTime, timeout, now)
    ensures s == Raise(OperationTimedOut(operation)) <==>
      Assess(operation, reply).Pending? && IsTimeout(startTime, timeout, now)
  {
    match Assess(operation, reply)
    case Resolved(s) => s
    case Pending =>
      if IsTimeout(startTime, timeout, now) then Raise(OperationTimedOut(operation)) else Continue
  }

  /** What `_monitor_request` shows its caller once polling stops: the reply carried by
      LoopingCallDone is discarded, so it only returns or raises. */
  function Finish(s: StepOutcome): (o: Outcome<Error>)
    requires !s.Continue?
    ensures o.Pass? <==> s.Done?
    ensures s.Raise? ==> o == Fail(s.error)
  {
    match s
    case Done(_) => Pass
    case Raise(e) => Fail(e)
  }

  /** One monitor run, seen from outside: the same `query` is issued on every poll after the
      call history `history`; poll k (from 0) gets the reply to the history extended by k + 1
      copies of the query, and reads the clock reading `firstReading + k` if it reaches the
      timeout check (every poll before it did once, by continuing). */
  datatype Poller = Poller(
    operation: string,
    query: Request,
    respond: seq<Request> -> Option<Reply>,
    history: seq<Request>,
    readings: nat -> int,
    firstReading: nat,
    startTime: int,
    timeout: int)
  {
    function ReplyTo(k: nat): Option<Reply>
    {
      respond(history + Repeat(query, k + 1))
    }

    function Now(k: nat): int
    {
      readings(firstReading + k)
    }

    function Step(k: nat): StepOutcome
    {
      Interpret(operation, ReplyTo(k), startTime, timeout, Now(k))
    }

    /** Poll n is the first one that does not let the monitor continue. */
    ghost predicate ResolvesAt(n: nat)
    {
      (forall k: nat :: k < n ==> Step(k).Continue?) && !Step(n).Continue?
    }
  }

  /** The specification of `_monitor_request`: from the call log `log0` and the clock count
      `t0` it reaches the log `log1` and the count `t1` after `polls` detail queries, with
      `outcome`. An operation whose query cannot be built raises before any call. */
  ghost predicate Monitored(
    operation: string, params: map<string, Value>,
    respond: seq<Request> -> Option<Reply>, readings: nat -> int,
    startTime: int, timeout: int,
    log0: seq<Request>, t0: nat, log1: seq<Request>, t1: int,
    polls: nat, outcome: Outcome<Error>)
  {
    match CallApi(operation, params)
    case Err(e) => polls == 0 && outcome == Fail(e) && log1 == log0 && t1 == t0
    case Ok(q) =>
      var p := Poller(operation, q, respond, log0, readings, t0, startTime, timeout);
      && polls >= 1
      && p.ResolvesAt(polls - 1)
      && outcome == Finish(p.Step(polls - 1))
      && log1 == log0 + Repeat(q, polls)
      && t1 == t0 + polls - 1 + (if Assess(operation, p.ReplyTo(polls - 1)).Pending? then 1 else 0)
  }

  // Properties of one iteration.

  /** An operation name outside the three kinds is rejected by both dispatchers. */
  lemma UnknownOperationRejected(operation: string, params: map<string, Value>, reply: Reply)
    requires KindOf(operation).None?
    ensures CallApi(operation, params) == Err(UnknownOperation(operation))
    ensures ItemStatus(operation, Some(reply)) == Err(UnknownOperation(operation))
  {
  }

  /** The snapshot and restore statuses come from their nested results, the clone status from
      the top-level result: changing any other field of a reply leaves the status unchanged. */
  lemma StatusFieldPerKind(reply: Reply, result: Option<Value>, snapshot: Option<InfoResult>, restore: Option<InfoResult>)
    ensures ItemStatus("snapshot_detail", Some(reply)) ==
            ItemStatus("snapshot_detail", Some(reply.(result := result, restoreInfoResult := restore)))
    ensures ItemStatus("restore_detail", Some(reply)) ==
            ItemStatus("restore_detail", Some(reply.(result := result, snapshotInfoResult := snapshot)))
    ensures ItemStatus("clone_detail", Some(reply)) ==
            ItemStatus("clone_detail", Some(reply.(snapshotInfoResult := snapshot, restoreInfoResult := restore)))
  {
  }

  /** A reply whose top-level result is 1 but whose nested snapshot status is 2 is still
      ongoing for a snapshot, while it is a success for a clone. */
  lemma TopLevelResultIsNotSnapshotStatus()
    ensures var r := Reply(Some(Num(0)), Some(Num(RequestSuccess)), Some(InfoResult(Some(Num(RequestOngoing)))), None, None);
      Assess("snapshot_detail", Some(r)) == Pending && Assess("clone_detail", Some(r)) == Resolved(Done(r))
  {
  }

  /** A nonzero transport status raises, whatever the item status and the clock say. */
  lemma TransportErrorComesFirst(operation: string, reply: Reply, startTime: int, timeout: int, now: int)
    requires reply.status.Some? && Truthy(reply.status.value)
    ensures Interpret(operation, Some(reply), startTime, timeout, now) == Raise(DetailQueryFailed(operation, reply.status.value))
  {
  }

  /** request.success stops polling with the reply, even after the deadline. */
  lemma SuccessBeatsTimeout(operation: string, reply: Reply, startTime: int, timeout: int, now: int)
    requires TransportOk(Some(reply)) && ItemStatus(operation, Some(reply)) == Ok(Num(RequestSuccess))
    ensures Interpret(operation, Some(reply), startTime, timeout, now) == Done(reply)
  {
  }

  /** request.failure raises, even after the deadline, and is not reported as a timeout. */
  lemma FailureBeatsTimeout(operation: string, reply: Reply, startTime: int, timeout: int, now: int)
    requires TransportOk(Some(reply)) && ItemStatus(operation, Some(reply)) == Ok(Num(RequestFailure))
    ensures Interpret(operation, Some(reply), startTime, timeout, now) == Raise(OperationFailed(operation, reply.status.value))
  {
  }

  /** Any item status other than 1 and 3 (not only 2) lets polling continue until the deadline. */
  lemma OtherStatusesContinue(operation: string, reply: Reply, s: Value, startTime: int, timeout: int, now: int)
    requires TransportOk(Some(reply)) && ItemStatus(operation, Some(reply)) == Ok(s)
    requires s != Num(RequestSuccess) && s != Num(RequestFailure)
    ensures Interpret(operation, Some(reply), startTime, timeout, now) ==
            if IsTimeout(startTime, timeout, now) then Raise(OperationTimedOut(operation)) else Continue
  {
  }

  /** The timeout is strict: it has not fired exactly `timeout` seconds after the start. */
  lemma TimeoutIsStrict(startTime: int, timeout: int)
    ensures !IsTimeout(startTime, timeout, startTime + timeout)
    ensures IsTimeout(startTime, timeout, startTime + timeout + 1)
  {
  }

  /** Once past, the deadline stays past for every later reading. */
  lemma TimeoutPersists(startTime: int, timeout: int, now: int, later: int)
    requires IsTimeout(startTime, timeout, now) && now <= later
    ensures IsTimeout(startTime, timeout, later)
  {
  }

  // Properties of a whole monitor run.

  /** A poll that does not continue is the last one: no query is issued after it. */
  lemma NoPollAfterStop(p: Poller, n: nat, k: nat)
    requires p.ResolvesAt(n) && !p.Step(k).Continue?
    ensures n <= k
  {
  }

  /** The poll at which a run stops is unique. */
  lemma ResolvesAtUnique(p: Poller, n: nat, m: nat)
    requires p.ResolvesAt(n) && p.ResolvesAt(m)
    ensures n == m
  {
  }

  /** Two runs from the same state against the same backend and clock end alike: same
      number of queries, same outcome, same log and same clock count. */
  lemma MonitoredIsDeterministic(
    operation: string, params: map<string, Value>,
    respond: seq<Request> -> Option<Reply>, readings: nat -> int,
    startTime: int, timeout: int, log0: seq<Request>, t0: nat,
    log1: seq<Request>, t1: int, polls: nat, outcome: Outcome<Error>,
    log1': seq<Request>, t1': int, polls': nat, outcome': Outcome<Error>)
    requires Monitored(operation, params, respond, readings, startTime, timeout, log0, t0, log1, t1, polls, outcome)
    requires Monitored(operation, params, respond, readings, startTime, timeout, log0, t0, log1', t1', polls', outcome')
    ensures polls == polls' && outcome == outcome' && log1 == log1' && t1 == t1'
  {
    match CallApi(operation, params)
    case Err(_) =>
    case Ok(q) =>
      var p := Poller(operation, q, respond, log0, readings, t0, startTime, timeout);
      ResolvesAtUnique(p, polls - 1, polls' - 1);
  }

  /** An unknown operation raises with no query issued and no clock reading taken. */
  lemma UnknownOperationIssuesNoCall(
    operation: string, params: map<string, Value>,
    respond: seq<Request> -> Option<Reply>, readings: nat -> int,
    startTime: int, timeout: int, log0: seq<Request>, t0: nat,
    log1: seq<Request>, t1: int, polls: nat, outcome: Outcome<Error>)
    requires KindOf(operation).None?
    requires Monitored(operation, params, respond, readings, startTime, timeout, log0, t0, log1, t1, polls, outcome)
    ensures polls == 0 && log1 == log0 && t1 == t0 && outcome == Fail(UnknownOperation(operation))
  {
  }

  /** A run times out only at a poll whose reading is past the deadline measured from the fixed
      start time, after polls that were all still pending and within the deadline. */
  lemma TimeoutMeansDeadlinePassed(p: Poller, n: nat)
    requires p.ResolvesAt(n) && p.Step(n) == Raise(OperationTimedOut(p.operation))
    ensures p.Now(n) - p.startTime > p.timeout
    ensures forall k: nat :: k < n ==> p.Now(k) - p.startTime <= p.timeout && Assess(p.operation, p.ReplyTo(k)).Pending?
  {
    forall k: nat | k < n
      ensures p.Now(k) - p.startTime <= p.timeout && Assess(p.operation, p.ReplyTo(k)).Pending?
    {
      assert p.Step(k).Continue?;
    }
  }

  /** If some poll cannot continue, the run stops at or before it. */
  lemma {:induction false} FirstStop(p: Poller, m: nat)
    requires !p.Step(m).Continue?
    ensures exists n: nat :: n <= m && p.ResolvesAt(n)
  {
    if forall k: nat :: k < m ==> p.Step(k).Continue? {
      assert p.ResolvesAt(m);
    } else {
      var k: nat :| k < m && !p.Step(k).Continue?;
      FirstStop(p, k);
    }
  }

  /** With a clock whose d-th reading is past the deadline, the run stops within d + 1 polls. */
  lemma MonitorTerminates(p: Poller, d: nat)
    requires p.Now(d) - p.startTime > p.timeout
    ensures exists n: nat :: n <= d && p.ResolvesAt(n)
  {
    FirstStop(p, d);
  }

  /** Replies ongoing, ongoing, success: exactly three queries, and the monitor returns. */
  lemma OngoingOngoingSuccess(p: Poller)
    requires Assess(p.operation, p.ReplyTo(0)).Pending? && Assess(p.operation, p.ReplyTo(1)).Pending?
    requires !IsTimeout(p.startTime, p.timeout, p.Now(0)) && !IsTimeout(p.startTime, p.timeout, p.Now(1))
    requires TransportOk(p.ReplyTo(2)) && ItemStatus(p.operation, p.ReplyTo(2)) == Ok(Num(RequestSuccess))
    ensures p.ResolvesAt(2) && Finish(p.Step(2)) == Pass
  {
    assert p.Step(0).Continue? && p.Step(1).Continue?;
  }

  /** Replies ongoing, failure: exactly two queries, and the monitor raises the failure. */
  lemma OngoingFailure(p: Poller)
    requires Assess(p.operation, p.ReplyTo(0)).Pending? && !IsTimeout(p.startTime, p.timeout, p.Now(0))
    requires TransportOk(p.ReplyTo(1)) && ItemStatus(p.operation, p.ReplyTo(1)) == Ok(Num(RequestFailure))
    ensures p.ResolvesAt(1)
    ensures Finish(p.Step(1)) == Fail(OperationFailed(p.operation, p.ReplyTo(1).value.status.value))
  {
    assert p.Step(0).Continue?;
  }

  /** When every reply is pending, the run ends in a timeout at the first reading past the
      deadline, and not before it. */
  lemma AllPendingTimesOut(p: Poller, n: nat)
    requires forall k: nat :: Assess(p.operation, p.ReplyTo(k)).Pending?
    requires p.ResolvesAt(n)
    ensures p.Step(n) == Raise(OperationTimedOut(p.operation))
    ensures IsTimeout(p.startTime, p.timeout, p.Now(n))
    ensures forall k: nat :: k < n ==> !IsTimeout(p.startTime, p.timeout, p.Now(k))
  {
    assert Assess(p.operation, p.ReplyTo(n)).Pending?;
    forall k: nat | k < n
      ensures !IsTimeout(p.startTime, p.timeout, p.Now(k))
    {
      assert p.Step(k).Continue?;
    }
  }

  /** DISCOCheck: follows one operation; its fields are set once, at construction. */
  class Check {
    const startTime: int
    const operation: string  // the `function` attribute of the source
    const client: Client
    const param: map<string, Value>

    constructor (client: Client, param: map<string, Value>, startTime: int, operation: string)
      ensures this.client == client && this.param == param
      ensures this.startTime == startTime && this.operation == operation
    {
      this.startTime := startTime;
      this.operation := operation;
      this.client := client;
      this.param := param;
    }

    /** `_retry_get_detail`: one poll. Builds the query, issues it, assesses the reply and,
        only when the job is still neither successful nor failed, reads the clock. */
    method RetryGetDetail(clock: Clock, startTime: int, timeout: int, operation: string, params: map<string, Value>)
      returns (step: StepOutcome)
      modifies client, clock
      ensures CallApi(operation, params).Err? ==>
        step == Raise(CallApi(operation, params).error) &&
        client.log == old(client.log) && clock.taken == old(clock.taken)
      ensures CallApi(operation, params).Ok? ==>
        && client.log == old(client.log) + [CallApi(operation, params).value]
        && step == Interpret(operation, client.respond(client.log), startTime, timeout, clock.readings(old(clock.taken)))
        && clock.taken == old(clock.taken) + (if Assess(operation, client.respond(client.log)).Pending? then 1 else 0)
    {
      var query := CallApi(operation, params);
      if query.Err? {
        return Raise(query.error);
      }
      var reply := client.Call(query.value);
      var verdict := Assess(operation, reply);
      if verdict.Resolved? {
        step := verdict.step;
      } else {
        var now := clock.Now();
        if IsTimeout(startTime, timeout, now) {
          step := Raise(OperationTimedOut(operation));
        } else {
          step := Continue;
        }
      }
    }

    /** `_monitor_request`: polls until an iteration stops. Some reading still to be taken must
        be past the deadline; then the loop ends. */
    method MonitorRequest(clock: Clock, timeout: int) returns (outcome: Outcome<Error>, ghost polls: nat)
      requires exists d: nat :: clock.taken <= d && clock.readings(d) > startTime + timeout
      modifies client, clock
      ensures Monitored(operation, param, client.respond, clock.readings, startTime, timeout,
                        old(client.log), old(clock.taken), client.log, clock.taken, polls, outcome)
    {
      ghost var log0, t0 := client.log, clock.taken;
      ghost var query := CallApi(operation, param);
      var step := RetryGetDetail(clock, startTime, timeout, operation, param);
      polls := if query.Ok? then 1 else 0;
      if query.Ok? {
        assert Repeat(query.value, 1) == [query.value];
      }
      if step.Continue? {
        ghost var p := Poller(operation, query.value, client.respond, log0, clock.readings, t0, startTime, timeout);
        ghost var d: nat :| t0 <= d && clock.readings(d) > startTime + timeout;
        step, polls := KeepPolling(clock, timeout, p, d, step);
      }
      outcome := Finish(step);
    }

    /** The timer's repeated calls after the first, for as long as each lets the monitor continue. */
    method KeepPolling(clock: Clock, timeout: int, ghost p: Poller, ghost d: nat, first: StepOutcome)
      returns (step: StepOutcome, ghost polls: nat)
      requires CallApi(operation, param) == Ok(p.query)
      requires p == Poller(operation, p.query, client.respond, p.history, clock.readings, p.firstReading, startTime, timeout)
      requires p.firstReading <= d && clock.readings(d) > startTime + timeout
      requires first == p.Step(0) && first.Continue?
      requires client.log == p.history + Repeat(p.query, 1) && clock.taken == p.firstReading + 1
      modifies client, clock
      ensures polls >= 1 && p.ResolvesAt(polls - 1) && step == p.Step(polls - 1)
      ensures client.log == p.history + Repeat(p.query, polls)
      ensures clock.taken == p.firstReading + polls - 1 + (if Assess(operation, p.ReplyTo(polls - 1)).Pending? then 1 else 0)
    {
      ghost var t0 := p.firstReading;
      step, polls := first, 1;
      while step.Continue?
        invariant 1 <= polls
        invariant client.log == p.history + Repeat(p.query, polls)
        invariant step == p.Step(polls - 1)
        invariant forall k: nat :: k < polls - 1 ==> p.Step(k).Continue?
        invariant clock.taken == t0 + polls - 1 + (if Assess(operation, p.ReplyTo(polls - 1)).Pending? then 1 else 0)
        invariant t0 + polls - 1 <= d
        invariant step.Continue? ==> t0 + polls - 1 < d
        decreases d - (t0 + polls - 1)
      {
        ghost var n := polls;
        assert clock.taken == t0 + n;
        step := RetryGetDetail(clock, startTime, timeout, operation, param);
        assert client.log == p.history + Repeat(p.query, n + 1) by {
          assert Repeat(p.query, n + 1) == Repeat(p.query, n) + [p.query];
        }
        assert step == p.Step(n);
        polls := n + 1;
      }
    }
  }
}
