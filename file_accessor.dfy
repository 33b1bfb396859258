/**
 * Access to named shared memory maps: the platform operations that open, create and
 * delete a map, and the helpers that read and set the dirty bit in a map's header.
 */
module FileAccess {
  import opened Wrappers
  import opened MemoryMappedFileConstants

  /** The access a map is opened with (`mmap.ACCESS_READ` or `mmap.ACCESS_WRITE`). */
  datatype Access = AccessRead | AccessWrite

  /** The smaller of two lengths. */
  function Min(a: nat, b: nat): (m: nat) {
    if a <= b then a else b
  }

  /** Whether the header of a map's bytes records it as populated: its first byte reads as the set flag. */
  function IsDirty(contents: seq<bv8>): (r: bool)
    ensures r <==> |contents| >= DIRTY_BIT_FLAG_NUM_BYTES && contents[0] == DIRTY_BIT_SET[0]
  {
    contents[..Min(DIRTY_BIT_FLAG_NUM_BYTES, |contents|)] == DIRTY_BIT_SET
  }

  /** A map's bytes after the set flag is written over its first byte. */
  function WithDirtyBit(contents: seq<bv8>): (r: seq<bv8>)
    requires |contents| >= DIRTY_BIT_FLAG_NUM_BYTES
    ensures |r| == |contents| && r[0] == DIRTY_BIT_SET[0]
    ensures forall i :: DIRTY_BIT_FLAG_NUM_BYTES <= i < |r| ==> r[i] == contents[i]
  {
    DIRTY_BIT_SET + contents[DIRTY_BIT_FLAG_NUM_BYTES..]
  }

  /** A Python `mmap` object: a view of the first `size` bytes of a shared region, with a cursor. */
  class MemMap {
    /** The shared region; every map of the same region sees the writes made through this one. */
    const region: array<bv8>
    const size: nat
    const writable: bool
    var cursor: nat

    ghost predicate Valid()
      reads this
    {
      size <= region.Length && cursor <= size
    }

    /** The bytes this map views. */
    function Contents(): (s: seq<bv8>)
      reads this, region
      requires size <= region.Length
    {
      region[..size]
    }

    constructor (region: array<bv8>, size: nat, writable: bool)
      requires size <= region.Length
      ensures Valid() && cursor == 0
      ensures this.region == region && this.size == size && this.writable == writable
    {
      this.region := region;
      this.size := size;
      this.writable := writable;
      cursor := 0;
    }

    /** `mmap.seek(pos)`; false where it raises ValueError (a position past the end). */
    method Seek(pos: nat) returns (ok: bool)
      requires Valid()
      modifies this`cursor
      ensures Valid()
      ensures ok <==> pos <= size
      ensures cursor == if ok then pos else old(cursor)
    {
      ok := pos <= size;
      if ok {
        cursor := pos;
      }
    }

    /** `mmap.read(n)`: up to `n` bytes from the cursor, fewer at the end; the cursor moves past them. */
    method Read(n: nat) returns (bytes: seq<bv8>)
      requires Valid()
      modifies this`cursor
      ensures Valid()
      ensures bytes == Contents()[old(cursor)..Min(old(cursor) + n, size)]
      ensures cursor == old(cursor) + |bytes|
    {
      bytes := region[cursor..Min(cursor + n, size)];
      cursor := cursor + |bytes|;
    }

    /**
     * `mmap.write(bytes)` at the cursor, which moves past them; false where it raises
     * (TypeError on a read-only map, ValueError past the end), leaving everything unchanged.
     */
    method Write(bytes: seq<bv8>) returns (ok: bool)
      requires Valid()
      modifies this`cursor, region
      ensures Valid()
      ensures ok <==> writable && old(cursor) + |bytes| <= size
      ensures ok ==> region[..] == old(region[..cursor]) + bytes + old(region[cursor + |bytes|..])
      ensures ok ==> cursor == old(cursor) + |bytes|
      ensures !ok ==> region[..] == old(region[..]) && cursor == old(cursor)
    {
      ok := writable && cursor + |bytes| <= size;
      if ok {
        forall i | 0 <= i < |bytes| {
          region[cursor + i] := bytes[i];
        }
        assert region[..] == old(region[..cursor]) + bytes + old(region[cursor + |bytes|..]);
        cursor := cursor + |bytes|;
      }
    }
  }

  /**
   * `FileAccessor`: the platform's named shared memory objects and the operations on them.
   * The operating-system calls behind open, create and delete are not modelled; where
   * they can fail for reasons of their own the outcome is left open.
   */
  class FileAccessor {
    var maps: map<string, array<bv8>>

    constructor ()
      ensures maps == map[]
    {
      maps := map[];
    }

    /** `open_mem_map`: a new map of an existing region, or None. */
    method OpenMemMap(mapName: string, mapSize: nat, access: Access) returns (r: Option<MemMap>)
      ensures mapName !in maps || mapSize > maps[mapName].Length ==> r.None?
      ensures r.Some? ==> fresh(r.value) && r.value.Valid() && r.value.cursor == 0
      ensures r.Some? ==> r.value.region == maps[mapName] && r.value.size == mapSize
      ensures r.Some? ==> r.value.writable == (access == AccessWrite)
    {
      r := None;
      if mapName in maps && mapSize <= maps[mapName].Length {
        var attached: bool := *;
        if attached {
          var m := new MemMap(maps[mapName], mapSize, access == AccessWrite);
          r := Some(m);
        }
      }
    }

    /** `create_mem_map`: a new zero-filled region of `mapSize` bytes under an unused name, or None. */
    method CreateMemMap(mapName: string, mapSize: nat) returns (r: Option<MemMap>)
      modifies this
      ensures mapName in old(maps) ==> r.None?
      ensures r.None? ==> maps == old(maps)
      ensures r.Some? ==> fresh(r.value) && fresh(r.value.region) && maps == old(maps)[mapName := r.value.region]
      ensures r.Some? ==> r.value.Valid() && r.value.cursor == 0 && r.value.writable
      ensures r.Some? ==> r.value.size == mapSize && r.value.Contents() == seq(mapSize, _ => ZERO_BYTE[0])
    {
      r := None;
      if mapName !in maps {
        var created: bool := *;
        if created {
          var region := new bv8[mapSize](_ => ZERO_BYTE[0]);
          var m := new MemMap(region, mapSize, true);
          maps := maps[mapName := region];
          r := Some(m);
        }
      }
    }

    /**
     * `delete_mem_map`: removes the named region; no action and false when there is no
     * region of that name, true exactly when it was removed.
     */
    method DeleteMemMap(mapName: string, memMap: MemMap) returns (deleted: bool)
      modifies this
      ensures mapName !in old(maps) ==> !deleted
      ensures deleted ==> mapName in old(maps) && maps == old(maps) - {mapName}
      ensures !deleted ==> maps == old(maps)
    {
      deleted := false;
      if mapName in maps {
        var unlinked: bool := *;
        if unlinked {
          maps := maps - {mapName};
          deleted := true;
        }
      }
    }

    /**
     * `_is_dirty_bit_set`: whether the map's first byte is the set flag. The bytes do not
     * change and the cursor ends at offset 0 wherever it started.
     */
    method IsDirtyBitSet(mapName: string, memMap: MemMap) returns (isSet: bool)
      requires memMap.Valid()
      modifies memMap`cursor
      ensures memMap.Valid() && memMap.cursor == 0
      ensures isSet == IsDirty(memMap.Contents())
      ensures memMap.region[..] == old(memMap.region[..])
    {
      var _ := memMap.Seek(0);
      var byteRead := memMap.Read(1);
      isSet := byteRead == DIRTY_BIT_SET;
      var _ := memMap.Seek(0);
    }

    /**
     * `_set_dirty_bit`: writes the set flag over byte 0 and changes no other byte, leaving
     * the cursor at 0. False where the write raises: a read-only or empty map.
     */
    method SetDirtyBit(mapName: string, memMap: MemMap) returns (ok: bool)
      requires memMap.Valid()
      modifies memMap`cursor, memMap.region
      ensures memMap.Valid() && memMap.cursor == 0
      ensures ok <==> memMap.writable && memMap.size >= DIRTY_BIT_FLAG_NUM_BYTES
      ensures ok ==> memMap.region[..] == old(memMap.region[..])[0 := DIRTY_BIT_SET[0]]
      ensures ok ==> memMap.Contents() == WithDirtyBit(old(memMap.Contents()))
      ensures !ok ==> memMap.region[..] == old(memMap.region[..])
    {
      var _ := memMap.Seek(0);
      ok := memMap.Write(DIRTY_BIT_SET);
      if ok {
        var _ := memMap.Seek(0);
      }
    }
  }

  // ---------------------------------------------------------------------------
  // Properties of the header flag

  /** After the flag is set, the header reads as populated. */
  lemma SetFlagReadsPopulated(contents: seq<bv8>)
    requires |contents| >= DIRTY_BIT_FLAG_NUM_BYTES
    ensures IsDirty(WithDirtyBit(contents))
  {
  }

  /** Setting the flag twice leaves the same bytes as setting it once. */
  lemma SetFlagIdempotent(contents: seq<bv8>)
    requires |contents| >= DIRTY_BIT_FLAG_NUM_BYTES
    ensures WithDirtyBit(WithDirtyBit(contents)) == WithDirtyBit(contents)
  {
  }

  /** A region whose first byte is still the zero byte reads as fresh, not populated. */
  lemma ZeroFlagReadsFresh(contents: seq<bv8>)
    requires |contents| >= DIRTY_BIT_FLAG_NUM_BYTES && contents[..DIRTY_BIT_FLAG_NUM_BYTES] == ZERO_BYTE
    ensures !IsDirty(contents)
  {
    assert contents[0] == contents[..DIRTY_BIT_FLAG_NUM_BYTES][0];
  }

  /** The flag only moves from fresh to populated: on a populated region setting it changes nothing. */
  lemma PopulatedIsFinal(contents: seq<bv8>)
    requires IsDirty(contents)
    ensures WithDirtyBit(contents) == contents
  {
  }
}
