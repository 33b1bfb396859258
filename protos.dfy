/**
 * The wire messages exchanged with the functions host, as plain values.
 * The protocol-buffer definitions themselves are not part of this model; only the
 * fields the core reads or writes appear here.
 */
module Protos {
  import opened Wrappers

  /**
   * The `data` oneof of a `TypedData` message. `Unset` is a message in which no
   * member of the oneof is populated.
   */
  datatype TypedData =
    | Unset
    | TdString(str: string)
    | TdJson(json: string)
    | TdBytes(bytes: seq<bv8>)
    | TdStream(stream: seq<bv8>)
    | TdHttp(http: RpcHttp)
    | TdInt(sint: int)
    | TdDouble(double: real)
    | TdCollectionBytes(collectionBytes: seq<seq<bv8>>)
    | TdCollectionString(collectionString: seq<string>)
    | TdCollectionDouble(collectionDouble: seq<real>)
    | TdCollectionSint64(collectionSint64: seq<int>)

  /** The `RpcHttp` message; a field never assigned keeps its default ("" or empty map). */
  datatype RpcHttp = RpcHttp(
    httpMethod: string,
    url: string,
    headers: map<string, string>,
    body: TypedData,
    params: map<string, string>,
    query: map<string, string>,
    statusCode: string,
    enableContentNegotiation: bool)

  /** The `RpcDataType` enumeration; the core distinguishes only bytes and string. */
  datatype RpcDataType = BytesType | StringType | OtherType

  /** The `RpcSharedMemory` descriptor of a range inside a named shared region. */
  datatype RpcSharedMemory = RpcSharedMemory(name: string, offset: nat, count: nat, dataType: RpcDataType)

  /** `WhichOneof('data')`: the name of the populated field, or None. */
  function WhichOneof(td: TypedData): (r: Option<string>)
    ensures r.None? <==> td.Unset?
  {
    match td
    case Unset => None
    case TdString(_) => Some("string")
    case TdJson(_) => Some("json")
    case TdBytes(_) => Some("bytes")
    case TdStream(_) => Some("stream")
    case TdHttp(_) => Some("http")
    case TdInt(_) => Some("int")
    case TdDouble(_) => Some("double")
    case TdCollectionBytes(_) => Some("collection_bytes")
    case TdCollectionString(_) => Some("collection_string")
    case TdCollectionDouble(_) => Some("collection_double")
    case TdCollectionSint64(_) => Some("collection_sint64")
  }
}
