/** DiscoDriver: the driver calls that start an asynchronous job on the request manager and
    then hand it to a monitor, and the small helpers they share. */
module DiscoDriver {
  import opened DiscoTypes
  import opened DiscoEnv
  import opened DiscoCheck

  /** units.Ki: a size in GB times Ki is the size in MB the request manager expects. */
  const Ki: int := 1024

  /** The driver's configuration options that the modelled calls read. */
  datatype Configuration = Configuration(
    volumeNamePrefix: string,
    snapshotCheckTimeout: int,
    restoreCheckTimeout: int,
    cloneCheckTimeout: int)

  /** The fields of a Cinder volume that the modelled calls read. */
  datatype Volume = Volume(id: string, size: int, providerLocation: Value)

  /** The DISCO name of a volume: the prefix joined to the volume id. */
  function VolumeName(prefix: string, id: string): (name: string)
    ensures |name| == |prefix| + |id|
    ensures name[..|prefix|] == prefix && name[|prefix|..] == id
  {
    prefix + id
  }

  /** Distinct volume ids give distinct names under one prefix. */
  lemma VolumeNameInjective(prefix: string, id1: string, id2: string)
    requires VolumeName(prefix, id1) == VolumeName(prefix, id2)
    ensures id1 == id2
  {
    assert id1 == VolumeName(prefix, id1)[|prefix|..];
  }

  /** A size in GB as the size in MB passed to the request manager. */
  function SizeInMb(sizeGb: int): (mb: int)
    ensures mb % Ki == 0 && mb / Ki == sizeGb
  {
    sizeGb * Ki
  }

  /** The reply of an initiating call: `status` and then `result` are read, and a true status
      raises; otherwise the call yields its result. */
  function Accepted(reply: Option<Reply>): (r: Result<Value, Error>)
    ensures r.Ok? <==> TransportOk(reply) && reply.value.result.Some?
    ensures r.Ok? ==> reply.value.result == Some(r.value)
    ensures reply.Some? && reply.value.status.Some? && reply.value.result.Some? && Truthy(reply.value.status.value) ==>
      r == Err(CallRejected(reply.value.status.value))
    ensures reply.Some? && reply.value.status.Some? && reply.value.result.None? ==> r == Err(MissingKey("result"))
    ensures r.Err? && r.error.CallRejected? ==>
      reply.Some? && reply.value.status.Some? && reply.value.result.Some? && Truthy(reply.value.status.value)
  {
    if reply.None? then Err(NoneSubscripted)
    else if reply.value.status.None? then Err(MissingKey("status"))
    else if reply.value.result.None? then Err(MissingKey("result"))
    else if Truthy(reply.value.status.value) then Err(CallRejected(reply.value.status.value))
    else Ok(reply.value.result.value)
  }

  /** The reply to `volumeDetailByName` after a restore or clone: `status` and the nested
      `volumeInfoResult.volumeId` are both read before the status is checked. */
  function NewVolumeId(reply: Option<Reply>): (r: Result<Value, Error>)
    ensures r.Ok? <==>
      TransportOk(reply) && reply.value.volumeInfoResult.Some? && reply.value.volumeInfoResult.value.volumeId.Some?
    ensures r.Ok? ==> reply.value.volumeInfoResult == Some(VolumeInfo(Some(r.value)))
    ensures reply.Some? && reply.value.status.Some? && Truthy(reply.value.status.value) && r.Err? ==>
      r.error.MissingKey? || r.error == CallRejected(reply.value.status.value)
    ensures (&& reply.Some? && reply.value.status.Some?
             && (reply.value.volumeInfoResult.None? || reply.value.volumeInfoResult.value.volumeId.None?))
            ==> r.Err? && r.error.MissingKey?
    ensures r.Err? && r.error.CallRejected? ==>
      && reply.Some? && reply.value.volumeInfoResult.Some? && reply.value.volumeInfoResult.value.volumeId.Some?
      && reply.value.status.Some? && Truthy(reply.value.status.value)
  {
    if reply.None? then Err(NoneSubscripted)
    else if reply.value.status.None? then Err(MissingKey("status"))
    else if reply.value.volumeInfoResult.None? then Err(MissingKey("volumeInfoResult"))
    else if reply.value.volumeInfoResult.value.volumeId.None? then Err(MissingKey("volumeId"))
    else if Truthy(reply.value.status.value) then Err(CallRejected(reply.value.status.value))
    else Ok(reply.value.volumeInfoResult.value.volumeId.value)
  }

  /** Whether a driver call returned or raised. */
  function AsOutcome(r: Result<Value, Error>): (o: Outcome<Error>)
    ensures o.Pass? <==> r.Ok?
    ensures r.Err? ==> o == Fail(r.error)
  {
    match r
    case Ok(_) => Pass
    case Err(e) => Fail(e)
  }

  /** The snapshot monitor queries the snapshot id parsed from the initiating result. */
  lemma SnapshotMonitorQueriesTheSnapshot(id: int)
    ensures CallApi("snapshot_detail", map["snapshot_id" := Num(id)]) == Ok(SnapshotDetail(Num(id)))
  {
  }

  /** The clone monitor queries the clone id together with the new volume's name. */
  lemma CloneMonitorQueriesTheClone(id: int, name: string)
    ensures CallApi("clone_detail", map["clone_id" := Num(id), "vol_name" := Text(name)]) ==
            Ok(CloneDetail(Num(id), Text(name)))
  {
  }

  class Driver {
    const client: Client
    const configuration: Configuration

    constructor (client: Client, configuration: Configuration)
      ensures this.client == client && this.configuration == configuration
    {
      this.client := client;
      this.configuration := configuration;
    }

    /** `create_volume`: one call, then the provider location is the call's result. */
    method CreateVolume(volume: Volume) returns (r: Result<Value, Error>)
      modifies client
      ensures client.log == old(client.log) +
        [VolumeCreate(VolumeName(configuration.volumeNamePrefix, volume.id), SizeInMb(volume.size))]
      ensures r == Accepted(client.respond(client.log))
    {
      var name := VolumeName(configuration.volumeNamePrefix, volume.id);
      var reply := client.Call(VolumeCreate(name, SizeInMb(volume.size)));
      r := Accepted(reply);
    }

    /** The monitoring step shared by the three initiators: the start time is read, a
        `DISCOCheck` is built over the shared client, and the request is monitored. Some
        reading after the start time must be past the deadline. */
    method Monitor(clock: Clock, operation: string, params: map<string, Value>, timeout: int)
      returns (outcome: Outcome<Error>, ghost polls: nat)
      requires exists d: nat :: clock.taken < d && clock.readings(d) > clock.readings(clock.taken) + timeout
      modifies client, clock
      ensures Monitored(operation, params, client.respond, clock.readings, clock.readings(old(clock.taken)), timeout,
                        old(client.log), old(clock.taken) + 1, client.log, clock.taken, polls, outcome)
    {
      ghost var d: nat :| clock.taken < d && clock.readings(d) > clock.readings(clock.taken) + timeout;
      var startTime := clock.Now();
      var check := new Check(client, params, startTime, operation);
      outcome, polls := check.MonitorRequest(clock, timeout);
    }

    /** `create_snapshot`: starts a snapshot, monitors it from a start time read right after
        the call was accepted, and returns the initiating result as provider location. */
    method CreateSnapshot(clock: Clock, volume: Volume, description: string)
      returns (r: Result<Value, Error>, ghost polls: nat)
      requires exists d: nat :: clock.taken < d && clock.readings(d) > clock.readings(clock.taken) + configuration.snapshotCheckTimeout
      modifies client, clock
      ensures
        var log1 := old(client.log) + [SnapshotCreate(volume.providerLocation, description)];
        var accepted := Accepted(client.respond(log1));
        && (accepted.Err? ==> r == Err(accepted.error) && client.log == log1 && clock.taken == old(clock.taken))
        && (accepted.Ok? && accepted.value.Text? ==>
              r == Err(NotAnInteger(accepted.value.s)) && client.log == log1 && clock.taken == old(clock.taken))
        && (accepted.Ok? && accepted.value.Num? ==>
              && Monitored("snapshot_detail", map["snapshot_id" := accepted.value], client.respond, clock.readings,
                           clock.readings(old(clock.taken)), configuration.snapshotCheckTimeout,
                           log1, old(clock.taken) + 1, client.log, clock.taken, polls, AsOutcome(r))
              && (r.Ok? ==> r.value == accepted.value))
    {
      var reply := client.Call(SnapshotCreate(volume.providerLocation, description));
      var accepted := Accepted(reply);
      if accepted.Err? {
        return Err(accepted.error), 0;
      }
      var result := accepted.value;
      var snapshotId := ToInt(result);
      if snapshotId.Err? {
        return Err(snapshotId.error), 0;
      }
      var params := map["snapshot_id" := Num(snapshotId.value)];
      var outcome;
      outcome, polls := Monitor(clock, "snapshot_detail", params, configuration.snapshotCheckTimeout);
      if outcome.Fail? {
        r := Err(outcome.error);
      } else {
        r := Ok(result);
      }
      assert AsOutcome(r) == outcome;
    }

    /** `create_volume_from_snapshot`: starts a restore into a new volume, monitors it, then
        reads the new volume's id back by name. */
    method CreateVolumeFromSnapshot(clock: Clock, volume: Volume, snapshotLocation: Value)
      returns (r: Result<Value, Error>, ghost polls: nat, ghost monitor: Outcome<Error>)
      requires exists d: nat :: clock.taken < d && clock.readings(d) > clock.readings(clock.taken) + configuration.restoreCheckTimeout
      modifies client, clock
      ensures
        var name := VolumeName(configuration.volumeNamePrefix, volume.id);
        var log1 := old(client.log) + [RestoreFromSnapshot(snapshotLocation, name)];
        var accepted := Accepted(client.respond(log1));
        && (accepted.Err? ==> r == Err(accepted.error) && client.log == log1 && clock.taken == old(clock.taken))
        && (accepted.Ok? && accepted.value.Text? ==>
              r == Err(NotAnInteger(accepted.value.s)) && client.log == log1 && clock.taken == old(clock.taken))
        && (accepted.Ok? && accepted.value.Num? ==>
              && (monitor.Pass? ==> |client.log| > |log1| && client.log[|client.log| - 1] == VolumeDetailByName(name))
              && var log2 := if monitor.Pass? then client.log[..|client.log| - 1] else client.log;
              && Monitored("restore_detail", map["restore_id" := accepted.value], client.respond, clock.readings,
                           clock.readings(old(clock.taken)), configuration.restoreCheckTimeout,
                           log1, old(clock.taken) + 1, log2, clock.taken, polls, monitor)
              && r == (if monitor.Pass? then NewVolumeId(client.respond(client.log)) else Err(monitor.error)))
    {
      var name := VolumeName(configuration.volumeNamePrefix, volume.id);
      var reply := client.Call(RestoreFromSnapshot(snapshotLocation, name));
      var accepted := Accepted(reply);
      if accepted.Err? {
        return Err(accepted.error), 0, Fail(accepted.error);
      }
      var restoreId := ToInt(accepted.value);
      if restoreId.Err? {
        return Err(restoreId.error), 0, Fail(restoreId.error);
      }
      var params := map["restore_id" := Num(restoreId.value)];
      var outcome;
      outcome, polls := Monitor(clock, "restore_detail", params, configuration.restoreCheckTimeout);
      monitor := outcome;
      if outcome.Fail? {
        return Err(outcome.error), polls, monitor;
      }
      ghost var log2 := client.log;
      var detail := client.Call(VolumeDetailByName(name));
      assert client.log[..|client.log| - 1] == log2;
      r := NewVolumeId(detail);
    }

    /** `create_cloned_volume`: starts a clone of a source volume under a new name, monitors
        it, then reads the new volume's id back by name. */
    method CreateClonedVolume(clock: Clock, volume: Volume, source: Volume)
      returns (r: Result<Value, Error>, ghost polls: nat, ghost monitor: Outcome<Error>)
      requires exists d: nat :: clock.taken < d && clock.readings(d) > clock.readings(clock.taken) + configuration.cloneCheckTimeout
      modifies client, clock
      ensures
        var name := VolumeName(configuration.volumeNamePrefix, volume.id);
        var log1 := old(client.log) + [VolumeClone(source.providerLocation, name)];
        var accepted := Accepted(client.respond(log1));
        && (accepted.Err? ==> r == Err(accepted.error) && client.log == log1 && clock.taken == old(clock.taken))
        && (accepted.Ok? && accepted.value.Text? ==>
              r == Err(NotAnInteger(accepted.value.s)) && client.log == log1 && clock.taken == old(clock.taken))
        && (accepted.Ok? && accepted.value.Num? ==>
              && (monitor.Pass? ==> |client.log| > |log1| && client.log[|client.log| - 1] == VolumeDetailByName(name))
              && var log2 := if monitor.Pass? then client.log[..|client.log| - 1] else client.log;
              && Monitored("clone_detail", map["clone_id" := accepted.value, "vol_name" := Text(name)],
                           client.respond, clock.readings,
                           clock.readings(old(clock.taken)), configuration.cloneCheckTimeout,
                           log1, old(clock.taken) + 1, log2, clock.taken, polls, monitor)
              && r == (if monitor.Pass? then NewVolumeId(client.respond(client.log)) else Err(monitor.error)))
    {
      var name := VolumeName(configuration.volumeNamePrefix, volume.id);
      var reply := client.Call(VolumeClone(source.providerLocation, name));
      var accepted := Accepted(reply);
      if accepted.Err? {
        return Err(accepted.error), 0, Fail(accepted.error);
      }
      var cloneId := ToInt(accepted.value);
      if cloneId.Err? {
        return Err(cloneId.error), 0, Fail(cloneId.error);
      }
      var params := map["clone_id" := Num(cloneId.value), "vol_name" := Text(name)];
      var outcome;
      outcome, polls := Monitor(clock, "clone_detail", params, configuration.cloneCheckTimeout);
      monitor := outcome;
      if outcome.Fail? {
        return Err(outcome.error), polls, monitor;
      }
      ghost var log2 := client.log;
      var detail := client.Call(VolumeDetailByName(name));
      assert client.log[..|client.log| - 1] == log2;
      r := NewVolumeId(detail);
    }
  }
}
