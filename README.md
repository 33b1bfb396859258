# Datum conversions and the shared memory map header, in Dafny

This project models two parts of the Azure Functions Python worker's data transport
between the functions host and the worker process.

- **The typed value `Datum`** (`bindings/datumdef.py`): a pair of a Python value and a type
  tag. It has three conversions: a wire `TypedData` message to a Datum (`from_typed_data`,
  recursive through the http body), a Datum to the native value given to a function
  (`python_value`), and a Datum back to a wire message (`datum_as_proto`, accepted only
  for string, bytes, json and http). It also has equality and hashing, and a bridge that
  moves bytes and strings through a shared memory region manager
  (`from_rpc_shared_memory`, `to_rpc_shared_memory`).
- **The shared memory map header** (`mmap_handler/`): a 9-byte header made of a one-byte
  dirty flag and an eight-byte content length. The accessor helpers read and set the flag
  through an `mmap` object's cursor.

Files and modules:

| file | module | contents |
|---|---|---|
| `wrappers.dfy` | `Wrappers` | `Option`, `Result` |
| `protos.dfy` | `Protos` | wire messages `TypedData` (the oneof, with `Unset`), `RpcHttp`, `RpcSharedMemory` |
| `datumdef.dfy` | `DatumDef` | `Value`, `Datum`, the conversions, equality and hash, their properties |
| `shared_memory_manager.dfy` | `SharedMemoryManagement` | the region manager the bridge calls: its answers are left open and its calls are logged |
| `datum_shared_memory.dfy` | `DatumSharedMemory` | `FromRpcSharedMemory`, `ToRpcSharedMemory` |
| `memorymappedfile_constants.dfy` | `MemoryMappedFileConstants` | header sizes and sentinel bytes |
| `file_accessor.dfy` | `FileAccess` | `MemMap` (an `mmap` object: a shared `array<bv8>` region, a view size and a cursor), `FileAccessor` |

Modelling conventions:

- Python exceptions are `Err` results:
  - NotImplementedError is `NotImplemented(type)`;
  - KeyError is `KeyMissing(key)`;
  - AttributeError is `NoAttribute`;
  - TypeError is `WrongType`;
  - the ValueError protobuf raises for bytes that are not valid UTF-8 is `InvalidUtf8`;
  - a JSON decoding error is `JsonDecodeFailure`;
  - the exception raised when the manager cannot place a value is `SharedMemoryWriteFailure`.
- The Python attribute `type` is called `kind`, because `type` is a Dafny keyword. A `type`
  of None is `Option.None`.
- `mmap` failures are modelled as a `false` result, and the method stops where Python would
  have raised. This applies to a write on a read-only or too-short map, and to a seek past
  the end.
- When a protobuf message is constructed, a keyword argument of None leaves its field
  unset. A string field (string, json, `RpcHttp.status_code` and the values of the
  `headers` map) takes a str, or bytes, which it decodes as UTF-8 (ValueError when they
  are not valid UTF-8). UTF-8 decoding is the parameter `utf8`. Any other value of the wrong
  Python type for its field is a TypeError.
- The region manager is an external collaborator. Each of its operations may answer `None`
  or a value, and the answer is not constrained. Every call is appended to the ghost log
  `calls` together with its arguments and its answer. The bridge's contracts are stated
  against that log: which operation was called, with which arguments, and what the bridge
  made of the answer. They also state when the manager is not called at all.
- The operating-system side of `open_mem_map`, `create_mem_map` and `delete_mem_map` is
  abstracted. Regions are arrays held in a map by name. Where the OS can fail for its own
  reasons, the outcome is left open (a nondeterministic choice). The docstrings' promises
  (an mmap or None, whether a delete happened) are postconditions; what the model adds
  to them is listed as its assumptions below.

Behaviour of the code that the model keeps, although it may surprise a reader:

- The code raises a plain `Exception` when the manager cannot place a value, not a
  dedicated transfer error type.
- `python_value` decodes `collection_double`, but `from_typed_data` rejects a
  `collection_double` field with NotImplementedError (`CollectionDoubleNotDecodedFromWire`).
- http Datums do not round-trip through encode and decode: the decoded record carries
  method, url, headers, body, params and query, while the encoder requires status_code,
  headers and body (`HttpDoesNotRoundTrip`, `DecodedHttpIsNotEncodable`).

The model's own assumptions about the platform implementations of the abstract file
accessor, beyond its docstrings (which say only that `open_mem_map` opens an existing map,
that `create_mem_map` creates a new one, and that each returns the mmap if successful and
None otherwise):

- `create_mem_map` creates exclusively: it fails (None) on a name already in use.
- A region `create_mem_map` makes is zero-filled, so a new map's dirty flag reads as not
  set.
- `open_mem_map` fails (None) when the requested size exceeds the existing region's.

## Model

| member | source | states |
|---|---|---|
| `DatumDef.PythonValue` | azure_functions_worker/bindings/datumdef.py:16-33 | None when value or type is None; bytes/string/int/double and any unrecognised type (http included) return the value unchanged; json yields the parser's result or a decode failure; each collection type yields a list with exactly the repeated field's items, same length and order, and a value lacking that field raises AttributeError |
| `DatumDef.ListOf` | azure_functions_worker/bindings/datumdef.py:25 | the list comprehension keeps the length and maps element i to element i |
| `DatumDef.EqualityIsFieldwise` | azure_functions_worker/bindings/datumdef.py:39-43 | two Datums are equal iff value and type are equal (so iff they are the same Datum); a non-Datum is never equal |
| `DatumDef.EqIsEquivalence` | azure_functions_worker/bindings/datumdef.py:39-43 | `__eq__` on Datums is reflexive, symmetric and transitive |
| `DatumDef.Hash` | azure_functions_worker/bindings/datumdef.py:45-46 | hashing succeeds exactly when the value is hashable (None, bytes, str, int, float); a dict or protobuf message raises TypeError |
| `DatumDef.EqualDatumsHashEqually` | azure_functions_worker/bindings/datumdef.py:39-46 | equal Datums have equal hashes, or are both unhashable |
| `DatumDef.FromTypedData` | azure_functions_worker/bindings/datumdef.py:54-95 | no Datum (not an empty one) exactly when no field is set; an error exactly when some field on the http-body chain is outside the supported set, and that error names a field; a decoded Datum's type is the populated field's name |
| `DatumDef.DecodeVerbatim` | azure_functions_worker/bindings/datumdef.py:76-95 | string, bytes, json and the three collection fields decode to a Datum tagged with the field name holding the field's content unchanged |
| `DatumDef.DecodeUnsupported` | azure_functions_worker/bindings/datumdef.py:90-93 | stream, int, double and collection_double fields raise NotImplementedError naming the field |
| `DatumDef.DecodeHttp` | azure_functions_worker/bindings/datumdef.py:57-75 | an http message decodes to a dict with exactly the keys method, url, headers, body, params and query; method and url are string Datums; headers, params and query keep the wire keys, each value a string Datum; body is the nested decode, or empty bytes when unset |
| `DatumDef.Eq` | azure_functions_worker/bindings/datumdef.py:39-43 | a Datum equals exactly the Datum object with its own value and type; any non-Datum is unequal |
| `DatumDef.WrapStrings` | azure_functions_worker/bindings/datumdef.py:62-74 | the header, params and query comprehensions keep the wire map's keys and wrap each value as a string Datum |
| `DatumDef.HttpRecord` | azure_functions_worker/bindings/datumdef.py:59-75 | the dict built for http has exactly the keys method, url, headers, body, params and query; method and url are string Datums, the three maps are the wrapped wire maps, body is the given decoded body |
| `DatumDef.StringField` | azure_functions_worker/bindings/datumdef.py:159 | a string field accepts None (field unset), a str (kept) or bytes that are valid UTF-8 (kept as the decoded text); bytes that are not valid UTF-8 raise ValueError; every other value raises TypeError |
| `DatumDef.BytesField` | azure_functions_worker/bindings/datumdef.py:161 | a bytes field accepts bytes (kept) or None (field unset) and rejects every other value with TypeError |
| `DatumDef.FlattenHeaders` | azure_functions_worker/bindings/datumdef.py:167-170 | headers flatten exactly when every Datum's value is a str or valid UTF-8 bytes, to the same keys, each mapped to that value's text; otherwise a TypeError or ValueError |
| `DatumDef.FlattenWrapped` | azure_functions_worker/bindings/datumdef.py:62-64 | flattening header Datums undoes wrapping wire header values as string Datums |
| `DatumDef.DatumAsProto` | azure_functions_worker/bindings/datumdef.py:157-177 | encodes exactly the Datums of the independent `Encodable` description (recursive through the http body; strings may be given as valid UTF-8 bytes); the populated field is named by the Datum's type; http always has content negotiation off; every type other than string, bytes, json and http raises NotImplementedError |
| `DatumDef.InlineRoundTrip` | azure_functions_worker/bindings/datumdef.py:157-163 | a string, bytes or json Datum holding a value of its type survives encode then decode unchanged |
| `DatumDef.WireRoundTrip` | azure_functions_worker/bindings/datumdef.py:76-81 | a string, bytes or json message survives decode then encode unchanged |
| `DatumDef.BytesAsText` | azure_functions_worker/bindings/datumdef.py:157-163 | bytes given to a string or json Datum encode as the text they decode to and come back from decoding as a str Datum, or raise ValueError when they are not valid UTF-8 |
| `DatumDef.AbsentValueEncodesUnset` | azure_functions_worker/bindings/datumdef.py:158-163 | a None value encodes to a message with no field set, which decodes to no Datum |
| `DatumDef.DecodedHttpIsNotEncodable` | azure_functions_worker/bindings/datumdef.py:164-166 | every Datum decoded from an http message fails to encode with KeyError on status_code |
| `DatumDef.HttpDoesNotRoundTrip` | azure_functions_worker/bindings/datumdef.py:164-173 | no encodable http Datum comes back unchanged from encode then decode |
| `DatumDef.EncodedIsDecodable` | azure_functions_worker/bindings/datumdef.py:157-177 | every message the encoder produces is accepted by `from_typed_data`: no field it emits, at any depth of http bodies, is one decoding rejects |
| `DatumDef.EncodeHttp` | azure_functions_worker/bindings/datumdef.py:164-173 | every encodable http Datum encodes to an RpcHttp built from status_code, headers and body only (other keys ignored): the status code's text or the default for None, each header Datum's value as text whatever that Datum's type, the recursively encoded body, content negotiation off, and defaults elsewhere |
| `DatumDef.EncodeHttpResponse` | azure_functions_worker/bindings/datumdef.py:164-173 | a response dict (status code, string headers, encodable body) encodes to RpcHttp with that status code, the header values, content negotiation off, the recursively encoded body, and defaults elsewhere |
| `DatumDef.CollectionStringValue` | azure_functions_worker/bindings/datumdef.py:24-25 | a collection_string message reaches the function as a list of its strings, in order |
| `DatumDef.CollectionDoubleNotDecodedFromWire` | azure_functions_worker/bindings/datumdef.py:82-93 | a collection_double message is rejected by `from_typed_data`, although `python_value` knows the type |
| `DatumSharedMemory.FromRpcSharedMemory` | azure_functions_worker/bindings/datumdef.py:97-115 | bytes and string descriptors make exactly one call, `get_bytes` or `get_string` respectively, with the descriptor's name, offset and count; a non-None answer becomes a Datum of that type and None stays None; any other type returns None without calling the manager |
| `DatumSharedMemory.ToRpcSharedMemory` | azure_functions_worker/bindings/datumdef.py:117-155 | bytes and string Datums make exactly one call, `put_bytes` or `put_string` respectively, with the value, and the outcome is that of `Described`; any other type raises NotImplementedError without calling the manager |
| `DatumSharedMemory.Described` | azure_functions_worker/bindings/datumdef.py:122-136 | when the manager names a region, the descriptor is that name at offset 0 with count len(value) and the matching type; when it answers None, the write fails |
| `MemoryMappedFileConstants.HeaderLayout` | azure_functions_worker/mmap_handler/memorymappedfile_constants.py:11-24 | flag 1 byte, content length 8 bytes, header 9 bytes (the payload starts at offset 9); each sentinel is one byte long and the two differ |
| `FileAccess.IsDirty` | azure_functions_worker/mmap_handler/file_accessor.py:49-53 | the byte read equals DIRTY_BIT_SET exactly when the map has a first byte and it is 0x01 |
| `FileAccess.WithDirtyBit` | azure_functions_worker/mmap_handler/file_accessor.py:62-63 | writing the flag makes byte 0 equal 0x01 and keeps the length and every other byte |
| `FileAccess.FileAccessor.OpenMemMap` | azure_functions_worker/mmap_handler/file_accessor.py:19-25 | None for an unknown name (or a size beyond the region); otherwise possibly a new map of that region, cursor at 0, writable iff opened for writing |
| `FileAccess.FileAccessor.CreateMemMap` | azure_functions_worker/mmap_handler/file_accessor.py:27-33 | either None with nothing changed, or a new zero-filled region of the requested size registered under the name, mapped writable with the cursor at 0 |
| `FileAccess.FileAccessor.DeleteMemMap` | azure_functions_worker/mmap_handler/file_accessor.py:35-42 | no action and false for an unknown name; true exactly when the name was removed, and nothing else changes |
| `FileAccess.FileAccessor.IsDirtyBitSet` | azure_functions_worker/mmap_handler/file_accessor.py:44-55 | true iff byte 0 is DIRTY_BIT_SET (false on a fresh, zeroed map); the bytes do not change; the cursor ends at 0 from any start |
| `FileAccess.FileAccessor.SetDirtyBit` | azure_functions_worker/mmap_handler/file_accessor.py:57-64 | writes 0x01 at offset 0, changes no other byte and leaves the cursor at 0; a read-only or empty map is left unchanged |
| `FileAccess.SetFlagReadsPopulated` | azure_functions_worker/mmap_handler/file_accessor.py:44-64 | after the flag is set, the dirty-bit check returns true |
| `FileAccess.SetFlagIdempotent` | azure_functions_worker/mmap_handler/file_accessor.py:57-64 | setting the flag twice leaves the same bytes as setting it once |
| `FileAccess.ZeroFlagReadsFresh` | azure_functions_worker/mmap_handler/memorymappedfile_constants.py:21-24 | a map whose first byte is ZERO_BYTE reads as not set, so fresh and populated maps are told apart |
| `FileAccess.PopulatedIsFinal` | azure_functions_worker/mmap_handler/memorymappedfile_constants.py:18-19 | on a populated map, setting the flag changes nothing: the flag only moves from fresh to populated |

## Left out

- `json.loads` is the parameter `parse` of `PythonValue`, a foreign parser that may fail. JSON parsing itself is not specified, and failures of every kind, TypeError included, are `JsonDecodeFailure`.
- UTF-8 decoding is not specified: it is the parameter `utf8` of the encoder, which answers None for bytes that are not valid UTF-8.
- `DatumDef.FlattenHeaders`: when several header values are refused, Python reports the first in the dict's order; the model reports a TypeError if any value is neither str nor bytes, and a ValueError otherwise.
- `DatumDef.Hash`: concrete hash values are not modelled. The hash of the tuple is the parameter `hashPair`; only the consistency of hashing with equality is stated.
- `__repr__` (cosmetic truncation) and `python_type` (Python type reflection) are not modelled.
- `TEMP_DIRS` and `TEMP_DIR_SUFFIX` are filesystem path configuration and are not modelled.
- The protobuf runtime is reduced to plain datatypes. It keeps only the fields the core reads or writes. The oneof is a datatype with an `Unset` constructor instead of `WhichOneof` reflection. `RpcDataType` keeps only bytes, string and "other".
- The region manager's internals are external: region naming, pooling, and the memory reads and writes. Its answers are unconstrained, so no lemma relates a `put_bytes` to a later `get_bytes`.
- The operating-system work behind opening, creating and deleting maps is not modelled: naming rules, permissions, and sizes of 0 (which Python maps to the whole file). `delete_mem_map` does not close the `mmap` object it is given, and `ACCESS_COPY` is not modelled.
- The eight-byte content-length field is only sized: no core operation reads or writes it.
- Doubles are reals: NaN's inequality with itself is not modelled, and neither is Python's cross-type numeric equality (`1 == 1.0`).
- String lengths (`len(value)` and descriptor counts) are counted in Dafny characters.
- `isinstance` also accepts subclasses of `Datum`; the model has no subclasses.
- An http dict can hold only Datums or dicts of Datums as values.
- Concurrent access to a region from several processes is not modelled; the code has no synchronisation.
