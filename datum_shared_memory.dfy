/**
 * The shared-memory bridge of `Datum`: reading a Datum out of a region described by an
 * `RpcSharedMemory` descriptor, and writing a Datum into a new region.
 */
module DatumSharedMemory {
  import opened Wrappers
  import opened Protos
  import opened DatumDef
  import opened SharedMemoryManagement

  /** Python's `len` on a Datum value; None where `len` raises TypeError. */
  function PyLen(v: Value): (r: Option<nat>)
    ensures v.VBytes? ==> r == Some(|v.b|)
    ensures v.VString? ==> r == Some(|v.s|)
    ensures v.VDict? ==> r == Some(|v.entries|)
    ensures !(v.VBytes? || v.VString? || v.VDict?) ==> r.None?
  {
    match v
    case VBytes(b) => Some(|b|)
    case VString(s) => Some(|s|)
    case VDict(e) => Some(|e|)
    case _ => None
  }

  /** The Datum the bridge makes of a manager read: the value tagged with its kind. */
  function Wrap<T>(got: Option<T>, make: T -> Value, kind: string): (r: Option<Datum>) {
    if got.Some? then Some(Datum(make(got.value), Some(kind))) else None
  }

  /**
   * `Datum.from_rpc_shared_memory`: one read of the descriptor's (name, offset, count)
   * with the operation matching its type, the result wrapped as a Datum of that type;
   * None when the manager answers None or the type is neither bytes nor string.
   */
  method FromRpcSharedMemory(shmem: RpcSharedMemory, mgr: SharedMemoryManager) returns (r: Option<Datum>)
    modifies mgr
    ensures shmem.dataType == BytesType ==>
      exists got :: mgr.calls == old(mgr.calls) + [GetBytesCall(shmem.name, shmem.offset, shmem.count, got)]
                    && r == Wrap(got, (b: seq<bv8>) => VBytes(b), "bytes")
    ensures shmem.dataType == StringType ==>
      exists got :: mgr.calls == old(mgr.calls) + [GetStringCall(shmem.name, shmem.offset, shmem.count, got)]
                    && r == Wrap(got, (s: string) => VString(s), "string")
    ensures shmem.dataType == OtherType ==> r.None? && mgr.calls == old(mgr.calls)
  {
    r := None;
    if shmem.dataType == BytesType {
      var got := mgr.GetBytes(shmem.name, shmem.offset, shmem.count);
      if got.Some? {
        r := Some(Datum(VBytes(got.value), Some("bytes")));
      }
    } else if shmem.dataType == StringType {
      var got := mgr.GetString(shmem.name, shmem.offset, shmem.count);
      if got.Some? {
        r := Some(Datum(VString(got.value), Some("string")));
      }
    }
  }

  /**
   * `Datum.to_rpc_shared_memory`: a bytes or string Datum is handed to the manager's put
   * operation of that type; its answer names the region of a descriptor at offset 0
   * spanning `len(value)`. A None answer is a failure, and any other type fails with
   * NotImplementedError before the manager is called.
   */
  method ToRpcSharedMemory(d: Datum, mgr: SharedMemoryManager) returns (r: Result<RpcSharedMemory, Error>)
    modifies mgr
    ensures d.kind == Some("bytes") ==>
      exists made :: mgr.calls == old(mgr.calls) + [PutBytesCall(d.value, made)]
                     && r == Described(made, d.value, BytesType)
    ensures d.kind == Some("string") ==>
      exists made :: mgr.calls == old(mgr.calls) + [PutStringCall(d.value, made)]
                     && r == Described(made, d.value, StringType)
    ensures d.kind !in {Some("bytes"), Some("string")} ==>
      r == Err(NotImplemented(d.kind)) && mgr.calls == old(mgr.calls)
  {
    if d.kind == Some("bytes") {
      var made := mgr.PutBytes(d.value);
      r := Described(made, d.value, BytesType);
    } else if d.kind == Some("string") {
      var made := mgr.PutString(d.value);
      r := Described(made, d.value, StringType);
    } else {
      r := Err(NotImplemented(d.kind));
    }
  }

  /**
   * The outcome of a put: the descriptor {name, offset 0, count len(value), type} when the
   * manager named a region, a write failure when it did not.
   */
  function Described(made: Option<string>, v: Value, t: RpcDataType): (r: Result<RpcSharedMemory, Error>)
    ensures made.None? ==> r == Err(SharedMemoryWriteFailure)
    ensures made.Some? && PyLen(v).Some? ==> r == Ok(RpcSharedMemory(made.value, 0, PyLen(v).value, t))
    ensures made.Some? && PyLen(v).None? ==> r == Err(WrongType)
  {
    match made
    case None => Err(SharedMemoryWriteFailure)
    case Some(name) =>
      match PyLen(v)
      case Some(n) => Ok(RpcSharedMemory(name, 0, n, t))
      case None => Err(WrongType)
  }
}
