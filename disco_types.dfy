/** Values exchanged between the DISCO volume driver and the DISCO request manager:
    the scalars of a reply, the replies themselves, the requests the driver issues and
    the errors the driver raises. */
module DiscoTypes {

  datatype Option<+T> = None | Some(value: T)

  datatype Result<+T, +E> = Ok(value: T) | Err(error: E)

  /** What a call that returns nothing useful observes: it returned, or it raised. */
  datatype Outcome<+E> = Pass | Fail(error: E)

  /** A scalar of a reply or of a parameter dictionary: an integer, or a piece of text. */
  datatype Value = Num(n: int) | Text(s: string)

  /** Python truthiness of a scalar, as used by `if status:`. */
  predicate Truthy(v: Value)
  {
    match v
    case Num(n) => n != 0
    case Text(s) => s != ""
  }

  // DISCO_CODE_MAPPING: the item status codes of the request manager.
  const RequestSuccess: int := 1
  const RequestOngoing: int := 2
  const RequestFailure: int := 3

  /** The nested `...InfoResult` dictionary of a snapshot or restore detail reply. */
  datatype InfoResult = InfoResult(status: Option<Value>)

  /** The nested `volumeInfoResult` dictionary of a volume detail reply. */
  datatype VolumeInfo = VolumeInfo(volumeId: Option<Value>)

  /** A reply dictionary. Every key may be absent; reading an absent key raises KeyError. */
  datatype Reply = Reply(
    status: Option<Value>,
    result: Option<Value>,
    snapshotInfoResult: Option<InfoResult>,
    restoreInfoResult: Option<InfoResult>,
    volumeInfoResult: Option<VolumeInfo>)

  /** The calls the driver makes on the request manager, with their arguments
      (constant arguments such as the -1 placeholders are not recorded). */
  datatype Request =
    | VolumeCreate(volumeName: string, sizeMb: int)
    | SnapshotCreate(volumeId: Value, description: string)
    | SnapshotDetail(snapshotId: Value)
    | RestoreFromSnapshot(snapshotId: Value, volumeName: string)
    | RestoreDetail(restoreId: Value)
    | VolumeClone(sourceId: Value, volumeName: string)
    | CloneDetail(cloneId: Value, cloneVolumeName: Value)
    | VolumeDetailByName(volumeName: string)

  /** Everything the driver can raise. All of them surface to the caller as an exception. */
  datatype Error =
    | UnknownOperation(operation: string)                 // operation name outside the three kinds
    | MissingKey(key: string)                             // KeyError on a dictionary
    | NoneSubscripted                                     // TypeError: subscripting a None reply
    | NoneReply                                           // the explicit None check on a reply
    | NotAnInteger(text: string)                          // ValueError raised by int()
    | DetailQueryFailed(operation: string, status: Value) // nonzero status on a detail query
    | OperationFailed(operation: string, status: Value)   // item status request.failure
    | OperationTimedOut(operation: string)                // still ongoing after the timeout
    | CallRejected(status: Value)                         // nonzero status on an initiating call

  /** Python's int() on a scalar. Text is not converted (see README). */
  function ToInt(v: Value): (r: Result<int, Error>)
    ensures r.Ok? <==> v.Num?
    ensures r.Ok? ==> v == Num(r.value)
  {
    match v
    case Num(n) => Ok(n)
    case Text(s) => Err(NotAnInteger(s))
  }

  /** `n` copies of `x`: the log of `n` identical calls. */
  function Repeat<T>(x: T, n: nat): (r: seq<T>)
    ensures |r| == n
    ensures forall i :: 0 <= i < n ==> r[i] == x
  {
    if n == 0 then [] else Repeat(x, n - 1) + [x]
  }
}
