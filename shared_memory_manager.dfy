/**
 * The shared-memory region manager the bridge delegates to. Its region naming, pooling
 * and memory I/O belong to the host platform and are not part of this model: each
 * operation may succeed or report failure with None, and every call is recorded in the
 * ghost log `calls`, so that contracts can say which operations were asked for, with
 * which arguments, and what they answered.
 */
module SharedMemoryManagement {
  import opened Wrappers
  import opened DatumDef

  /** One call on the manager, with its arguments and its answer. */
  datatype Call =
    | GetBytesCall(name: string, offset: nat, count: nat, gotBytes: Option<seq<bv8>>)
    | GetStringCall(name: string, offset: nat, count: nat, gotString: Option<string>)
    | PutBytesCall(content: Value, madeName: Option<string>)
    | PutStringCall(content: Value, madeName: Option<string>)

  class SharedMemoryManager {
    ghost var calls: seq<Call>

    constructor ()
      ensures calls == []
    {
      calls := [];
    }

    /** Reads `count` bytes at `offset` of region `name`; None if that cannot be done. */
    method GetBytes(name: string, offset: nat, count: nat) returns (r: Option<seq<bv8>>)
      modifies this
      ensures calls == old(calls) + [GetBytesCall(name, offset, count, r)]
    {
      r := *;
      calls := calls + [GetBytesCall(name, offset, count, r)];
    }

    /** Reads a string of `count` units at `offset` of region `name`; None if that cannot be done. */
    method GetString(name: string, offset: nat, count: nat) returns (r: Option<string>)
      modifies this
      ensures calls == old(calls) + [GetStringCall(name, offset, count, r)]
    {
      r := *;
      calls := calls + [GetStringCall(name, offset, count, r)];
    }

    /** Places `content` in a new region; answers the region's name, or None on failure. */
    method PutBytes(content: Value) returns (r: Option<string>)
      modifies this
      ensures calls == old(calls) + [PutBytesCall(content, r)]
    {
      r := *;
      calls := calls + [PutBytesCall(content, r)];
    }

    /** As `PutBytes`, for a string. */
    method PutString(content: Value) returns (r: Option<string>)
      modifies this
      ensures calls == old(calls) + [PutStringCall(content, r)]
    {
      r := *;
      calls := calls + [PutStringCall(content, r)];
    }
  }
}
