# DISCO volume driver: the operation-completion monitor

The DISCO Cinder driver (`cinder/volume/drivers/disco/disco.py`) starts long-running jobs on
the DISCO request manager (snapshot, restore from snapshot, clone) and learns when they end
by polling. `DISCOCheck` does the polling. Each iteration of its fixed-interval timer:

1. builds and issues one detail query for the operation (`_call_api`);
2. raises when the reply's transport `status` is true;
3. reads the item status from the field of its kind (`_get_item_status`): the nested
   `snapshotInfoResult.status`, the nested `restoreInfoResult.status`, or `int(result)`
   for a clone;
4. raises on `request.failure` (3) and stops with the reply on `request.success` (1);
5. only for any other status, reads the clock and raises when strictly more than `timeout`
   seconds have passed since the fixed start time.

The initiators `create_snapshot`, `create_volume_from_snapshot` and `create_cloned_volume`
make the initiating call, raise on a true `status`, convert the result to the job id,
read the start time, monitor, and return the provider location. `create_volume` shares the
name and size helpers.

Files:

- `disco_types.dfy` (`DiscoTypes`): scalars, reply dictionaries, requests, errors,
  `DISCO_CODE_MAPPING`.
- `disco_env.dfy` (`DiscoEnv`): the request-manager client, a class with a call log whose
  replies are a function of the call history, and the clock, a class handing out a scripted
  sequence of integer readings.
- `disco_check.dfy` (`DiscoCheck`): the dispatch on the operation name, the assessment of a
  reply, the specification of a whole run (`Poller`, `Monitored`), the `Check` class
  (`DISCOCheck`) with its timer loop, and the lemmas.
- `disco_driver.dfy` (`DiscoDriver`): the helpers and the initiator flows of `DiscoDriver`.

How the model reads the Python:

- Everything the driver raises is an `Error` value. KeyError on a missing key is
  `MissingKey`. TypeError from `reply['status']` on a `None` reply is `NoneSubscripted`.
  ValueError from `int()` is `NotAnInteger`. The `VolumeBackendAPIException`s are the other
  constructors. Logging and message text are dropped.
- `_retry_get_detail` reads `reply['status']` (line 486) before `_get_item_status`
  checks for `None` (line 522). So inside the monitor a `None` reply raises
  `NoneSubscripted`. `ItemStatus` keeps the `NoneReply` branch for direct calls.
- `_monitor_request` discards the reply carried by `LoopingCallDone` (line 546). So a
  monitor run ends in `Pass` or `Fail(error)` (`Finish`), not in the success payload.
- The timer becomes a `while` loop that calls `RetryGetDetail` until the returned step is
  not `Continue`. `time.time()` becomes `Clock.Now`. The clock is read only on the
  "neither success nor failure" branch, as in the source, so poll k of a run uses the k-th
  reading of that run.
- The loop ends because some reading still to be taken is past the deadline.
  `MonitorRequest` requires this: it is an assumption of the model, not a property of
  `time.time()`. The readings may go backwards (a clock set back); `is_timeout` compares
  each reading with the fixed start time on its own.
- `Monitored` states the whole run. The same query is issued on every poll. The run stops
  at the first poll that does not continue, and no query follows that poll. The log grows by
  exactly one query per poll. The clock count grows by one per reading taken. An operation
  whose query cannot be built raises before any call.
- A `None` reply raises TypeError (line 486). A clone whose `result` is not an integer
  raises ValueError (line 531). The model keeps these as separate errors.
- The failure error carries only the operation and the transport status (lines 487-497),
  not the reply: `OperationFailed(operation, status)`.

## Model

| member | source | states |
|---|---|---|
| DiscoTypes.ToInt | cinder/volume/drivers/disco/disco.py:208 | int() succeeds exactly on integers and returns the same number |
| DiscoCheck.KindOf | cinder/volume/drivers/disco/disco.py:506-536 | the three operation names map one to one onto the three kinds; every other name maps to none |
| DiscoCheck.CallApi | cinder/volume/drivers/disco/disco.py:506-518 | an unknown operation raises; otherwise the query is built iff every parameter key of the kind is present; the query has the operation's kind and carries the parameter values in key order; a missing key raises KeyError for a key of that kind |
| DiscoCheck.ItemStatus | cinder/volume/drivers/disco/disco.py:520-536 | None raises; an unknown operation raises; snapshot and restore return their nested status exactly when it is present; clone returns the top-level result exactly when it is an integer; every other error is a KeyError or a ValueError |
| DiscoCheck.Assess | cinder/volume/drivers/disco/disco.py:485-500 | a true transport status raises before the item status is read; success is decided iff the transport is ok and the item status is 1, and it carries the reply; a missing `status` key raises KeyError; an item-status error (KeyError, ValueError) is raised as it is; the failure error is raised iff the transport is ok and the item status is 3; the timeout check is reached iff the transport is ok and the item status is some value other than 1 and 3 |
| DiscoCheck.Interpret | cinder/volume/drivers/disco/disco.py:483-504 | a decision taken before the clock does not depend on the clock; the iteration continues iff it reached the timeout check and the timeout has not passed; it times out iff it reached the check and the timeout has passed |
| DiscoCheck.Finish | cinder/volume/drivers/disco/disco.py:538-546 | the monitor returns iff polling stopped on success, and otherwise raises the iteration's error |
| DiscoCheck.UnknownOperationRejected | cinder/volume/drivers/disco/disco.py:506-536 | both dispatchers reject an operation outside the three kinds |
| DiscoCheck.StatusFieldPerKind | cinder/volume/drivers/disco/disco.py:526-531 | the snapshot or restore status ignores the top-level result and the other nested field; the clone status ignores both nested fields |
| DiscoCheck.TopLevelResultIsNotSnapshotStatus | cinder/volume/drivers/disco/disco.py:526-531 | a reply with result 1 and nested snapshot status 2 is ongoing for a snapshot and a success for a clone |
| DiscoCheck.TransportErrorComesFirst | cinder/volume/drivers/disco/disco.py:485-492 | a true transport status raises the query error, whatever the item status and the clock say |
| DiscoCheck.SuccessBeatsTimeout | cinder/volume/drivers/disco/disco.py:499-500 | item status 1 stops polling with the reply at any clock reading, even after the deadline |
| DiscoCheck.FailureBeatsTimeout | cinder/volume/drivers/disco/disco.py:494-497 | item status 3 raises the failure at any clock reading and is never reported as a timeout |
| DiscoCheck.OtherStatusesContinue | cinder/volume/drivers/disco/disco.py:494-504 | any item status other than 1 and 3 continues before the deadline and times out after it |
| DiscoCheck.IsTimeout | cinder/volume/drivers/disco/disco.py:478-481 | the timeout has passed iff the reading is strictly later than the start time plus `timeout` seconds |
| DiscoCheck.TimeoutIsStrict | cinder/volume/drivers/disco/disco.py:478-481 | exactly `timeout` seconds after the start is not a timeout, one second more is |
| DiscoCheck.TimeoutPersists | cinder/volume/drivers/disco/disco.py:478-481 | once the deadline has passed, every later reading is past it too |
| DiscoCheck.NoPollAfterStop | cinder/volume/drivers/disco/disco.py:494-504 | a poll that succeeds, fails, raises or times out is the last poll of the run |
| DiscoCheck.ResolvesAtUnique | cinder/volume/drivers/disco/disco.py:538-546 | a run stops at one poll only |
| DiscoCheck.MonitoredIsDeterministic | cinder/volume/drivers/disco/disco.py:538-546 | two runs from the same state against the same backend and clock issue the same number of queries, leave the same log and clock count and end alike |
| DiscoCheck.UnknownOperationIssuesNoCall | cinder/volume/drivers/disco/disco.py:506-518 | a run with an unknown operation raises it with no query issued and no clock reading taken |
| DiscoCheck.TimeoutMeansDeadlinePassed | cinder/volume/drivers/disco/disco.py:501-504 | a run that times out stopped at the first reading more than `timeout` after the fixed start time; every earlier poll was pending and within the deadline |
| DiscoCheck.FirstStop | cinder/volume/drivers/disco/disco.py:538-546 | if some poll cannot continue, the run stops at or before it |
| DiscoCheck.MonitorTerminates | cinder/volume/drivers/disco/disco.py:538-546 | if the d-th reading is past the deadline, the run stops within d + 1 polls |
| DiscoCheck.OngoingOngoingSuccess | cinder/volume/drivers/disco/disco.py:483-504 | replies ongoing, ongoing, success within the deadline: the run stops at the third query and returns |
| DiscoCheck.OngoingFailure | cinder/volume/drivers/disco/disco.py:483-504 | replies ongoing, failure: the run stops at the second query and raises the failure |
| DiscoCheck.AllPendingTimesOut | cinder/volume/drivers/disco/disco.py:501-504 | when every reply is pending, the run times out at the first reading past the deadline and not before it |
| DiscoCheck.Check.constructor | cinder/volume/drivers/disco/disco.py:471-476 | the client, parameters, start time and operation are stored once |
| DiscoCheck.Check.RetryGetDetail | cinder/volume/drivers/disco/disco.py:483-504 | an operation whose query cannot be built raises with no call and no reading; otherwise exactly one query is logged, the step is the decision for the reply and the next reading, and the clock is read iff the timeout check is reached |
| DiscoCheck.Check.MonitorRequest | cinder/volume/drivers/disco/disco.py:538-546 | the run satisfies `Monitored`: it stops at the first poll that does not continue, with one logged query per poll, and returns iff that poll succeeded |
| DiscoCheck.Check.KeepPolling | cinder/volume/drivers/disco/disco.py:538-546 | after a first poll that continued, the loop ends at the first poll that does not continue, with one logged query per poll |
| DiscoEnv.Client.Call | cinder/volume/drivers/disco/disco.py:506-514 | a call appends its request to the log and returns the backend's answer to the history so far |
| DiscoEnv.Clock.Now | cinder/volume/drivers/disco/disco.py:480 | each reading returns the next scripted value and advances the count by one |
| DiscoDriver.VolumeName | cinder/volume/drivers/disco/disco.py:142-143 | the name is the prefix followed by the volume id |
| DiscoDriver.VolumeNameInjective | cinder/volume/drivers/disco/disco.py:142-143 | different volume ids give different names under one prefix |
| DiscoDriver.SizeInMb | cinder/volume/drivers/disco/disco.py:144 | the size in MB is a multiple of 1024 whose quotient by 1024 is the size in GB |
| DiscoDriver.Accepted | cinder/volume/drivers/disco/disco.py:195-205 | an initiating call succeeds iff its status is present and false and its result is present; it then yields the result; a missing `result` raises KeyError even when the status is true; the call is rejected iff both keys are present and the status is true, and the error carries that status |
| DiscoDriver.NewVolumeId | cinder/volume/drivers/disco/disco.py:277-286 | the look-up succeeds iff the status is present and false and the nested volume id is present; it then yields the id; both keys are read before the status is checked, so a missing `volumeInfoResult` or `volumeId` raises KeyError even when the status is true, and the status error arises only when both are present |
| DiscoDriver.SnapshotMonitorQueriesTheSnapshot | cinder/volume/drivers/disco/disco.py:208-213 | the snapshot monitor's query carries the snapshot id parsed from the result |
| DiscoDriver.CloneMonitorQueriesTheClone | cinder/volume/drivers/disco/disco.py:319-325 | the clone monitor's query carries the clone id and the new volume name |
| DiscoDriver.Driver.constructor | cinder/volume/drivers/disco/disco.py:110-127 | the client and the configuration are stored |
| DiscoDriver.Driver.CreateVolume | cinder/volume/drivers/disco/disco.py:140-160 | one create call with the prefixed name and the size in MB; the result is the call's accepted result |
| DiscoDriver.Driver.Monitor | cinder/volume/drivers/disco/disco.py:209-213 | the start time is the reading taken right after the initiating call; the request is then monitored over the shared client from that start time, and the run satisfies `Monitored` |
| DiscoDriver.Driver.CreateSnapshot | cinder/volume/drivers/disco/disco.py:182-220 | a rejected or non-integer initiating reply raises with no monitor and no clock reading; otherwise the snapshot is monitored from the reading taken right after the call, and the call returns the initiating result iff the monitor returned |
| DiscoDriver.Driver.CreateVolumeFromSnapshot | cinder/volume/drivers/disco/disco.py:242-290 | a rejected or non-integer restore reply raises with no monitor; otherwise the restore is monitored; if the monitor returns, one look-up by name follows and gives the new volume id; otherwise its error is raised |
| DiscoDriver.Driver.CreateClonedVolume | cinder/volume/drivers/disco/disco.py:292-341 | a rejected or non-integer clone reply raises with no monitor; otherwise the clone is monitored with the clone id and the new name; if the monitor returns, one look-up by name follows and gives the new volume id |

## Left out

- The timer (`loopingcall.FixedIntervalLoopingCall`), the `retry_interval` sleep and whether a wait comes before the first query: the library is not part of this model. Polls follow each other directly, and the model says nothing about waiting.
- `time.time()`: replaced by a scripted sequence of integer readings (`Clock.readings`), which may go backwards. The readings stand for the already truncated `int(time.time())` of lines 209 and 480, so the truncation itself is not modelled.
- The SOAP (`suds`) and REST (`disco_api`) clients, `do_setup` and `check_for_setup_error`: network, foreign code and filesystem checks. The client is a scripted backend. Exceptions raised inside the client are not modelled.
- `api.volume_get` in `create_snapshot`: a database look-up. The looked-up volume is a parameter.
- `snapshot['provider_location'] = result` in `create_snapshot`: an in-place update of the caller's dictionary. It stores the same value that the call returns.
- `create_cloned_volume` computes the size in MB but never passes it. The model drops the unused value.
- `delete_volume`, `delete_snapshot`, `extend_volume`: single calls outside the monitored flows.
- `copy_image_to_volume`, `copy_volume_to_image`, the connection and export calls, `local_path`: device and image I/O in foreign modules.
- `_update_volume_stats` and `get_volume_stats`: float parsing under a catch-all handler around a remote call.
- Option registration, logging and message text. The malformed tuple messages at lines 332, 385, 516 and 533 are modelled only as "an error is raised".
- DiscoTypes.ToInt: does not parse numeric text the way Python's int() does; text is always treated as not convertible. A clone whose `result` is the text of an integer therefore raises in the model.
- Reply values are integers or text. Python's cross-type equality (for example `True == 1` or `1.0 == 1`) is not modelled. A nested `None` dictionary is treated like a missing key.
- DiscoCheck.Check.MonitorRequest: requires that some clock reading still to be taken is past the deadline (the three initiators require the same of a reading after their start time). Without that the source could poll forever; the model does not cover that case. The readings need not be monotone.
