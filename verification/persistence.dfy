/**
 * The host's persistence primitives `loadData` and `saveData`, reduced to a
 * single stored blob. Whether a call resolves or rejects is a parameter.
 */
module Persistence {
  import opened Wrappers
  import opened Json

  /** The stored blob; None when nothing has been persisted yet. */
  type Blob = Option<Value>

  /** Whether the host's asynchronous I/O call resolves or rejects. */
  datatype Io = Succeeds | Fails

  /** The rejection of a host I/O call, propagated to the caller. */
  datatype IoError = Rejected

  /** `loadData()`: the stored blob, or the rejection. */
  function LoadData(disk: Blob, io: Io): (r: Result<Blob, IoError>)
    ensures io.Succeeds? <==> r.Success?
    ensures r.Success? ==> r.value == disk
  {
    match io
    case Succeeds => Success(disk)
    case Fails => Failure(Rejected)
  }

  /** `saveData(data)`: the blob afterwards, and whether the call resolved. */
  function SaveData(disk: Blob, data: map<string, Value>, io: Io): (r: (Blob, Outcome<IoError>))
    ensures io.Succeeds? ==> r == (Some(Obj(data)), Pass)
    ensures io.Fails? ==> r == (disk, Fail(Rejected))
  {
    match io
    case Succeeds => (Some(Obj(data)), Pass)
    case Fails => (disk, Fail(Rejected))
  }
}
