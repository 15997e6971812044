/** The pipeline cache of the newer Direct3D 12 backend: a map from pipeline
    cache ids to the blobs the driver returned for compiled pipeline states,
    the hit/miss decision of create_pipeline, and serialize_shader_cache's byte
    layout. Blobs are byte strings; the driver's blob of a new pipeline state is
    an input. The map's iteration order is unspecified in the source, so
    serialisation is given the entries in the order it visits them. */
module ShaderCaches {
  import opened Wrappers

  const U32: nat := 0x1_0000_0000
  const U64: nat := 0x1_0000_0000_0000_0000

  type Byte = x: int | 0 <= x < 256
  type Uint32 = x: int | 0 <= x < U32
  type Blob = seq<Byte>

  /** 'D' | '3' << 8 | 'D' << 16 | '1' << 24. */
  const ShaderCacheMagic: Uint32 := 68 + 51 * 0x100 + 68 * 0x1_0000 + 49 * 0x100_0000

  // ---------------------------------------------------------------------
  // Little-endian integers

  /** The n low bytes of x, least significant first. */
  function LittleEndian(x: nat, n: nat): (r: seq<Byte>)
    ensures |r| == n
  {
    if n == 0 then [] else [x % 256] + LittleEndian(x / 256, n - 1)
  }

  /** The number n little-endian bytes denote. */
  function FromLittleEndian(b: seq<Byte>): (r: nat)
    ensures r < Pow256(|b|)
  {
    if |b| == 0 then 0 else b[0] + 256 * FromLittleEndian(b[1..])
  }

  function Pow256(n: nat): (r: nat)
    ensures r > 0
  {
    if n == 0 then 1 else 256 * Pow256(n - 1)
  }

  lemma Pow256Widths()
    ensures Pow256(4) == U32 && Pow256(8) == U64
  {
  }

  lemma {:induction false} LittleEndianRoundTrip(x: nat, n: nat)
    requires x < Pow256(n)
    ensures FromLittleEndian(LittleEndian(x, n)) == x
  {
    if n > 0 {
      LittleEndianRoundTrip(x / 256, n - 1);
      assert LittleEndian(x, n)[1..] == LittleEndian(x / 256, n - 1);
    }
  }

  /** The magic is stored as the characters D, 3, D, 1. */
  lemma MagicIsD3D1()
    ensures LittleEndian(ShaderCacheMagic, 4) == [68, 51, 68, 49]
  {
  }

  // ---------------------------------------------------------------------
  // Layout

  /** One cache entry: a 4-byte id, an 8-byte size and the blob's bytes. */
  datatype Entry = Entry(id: Uint32, blob: Blob)

  function EncodeEntry(e: Entry): (r: seq<Byte>)
    ensures |r| == 12 + |e.blob|
  {
    LittleEndian(e.id, 4) + LittleEndian(|e.blob| % U64, 8) + e.blob
  }

  function EncodeEntries(es: seq<Entry>): seq<Byte> {
    if |es| == 0 then [] else EncodeEntries(es[..|es| - 1]) + EncodeEntry(es[|es| - 1])
  }

  /** The file serialize_shader_cache writes: the magic, the entry count as a
      uint32, then every entry. */
  function Encode(es: seq<Entry>): seq<Byte> {
    LittleEndian(ShaderCacheMagic, 4) + LittleEndian(|es| % U32, 4) + EncodeEntries(es)
  }

  /** The total serialize_shader_cache computes before writing. */
  function TotalBytes(es: seq<Entry>): nat {
    if |es| == 0 then 8 else TotalBytes(es[..|es| - 1]) + 12 + |es[|es| - 1].blob|
  }

  lemma {:induction false} EncodedSize(es: seq<Entry>)
    ensures |Encode(es)| == TotalBytes(es)
    ensures |EncodeEntries(es)| + 8 == TotalBytes(es)
  {
    if |es| > 0 {
      EncodedSize(es[..|es| - 1]);
    }
  }

  /** A reader of the layout, front to back; the source's deserialize is a
      stub, so this is the reference the layout is checked against. */
  function DecodeEntries(b: seq<Byte>, count: nat): Option<seq<Entry>>
    decreases count
  {
    if count == 0 then (if |b| == 0 then Some([]) else None)
    else if |b| < 12 then None
    else
      var size := FromLittleEndian(b[4..12]);
      if |b| < 12 + size then None
      else
        Pow256Widths();
        match DecodeEntries(b[12 + size..], count - 1)
        case None => None
        case Some(rest) => Some([Entry(FromLittleEndian(b[..4]), b[12..12 + size])] + rest)
  }

  function Decode(b: seq<Byte>): Option<seq<Entry>> {
    if |b| < 8 || FromLittleEndian(b[..4]) != ShaderCacheMagic then None
    else DecodeEntries(b[8..], FromLittleEndian(b[4..8]))
  }

  /** Entries written front to back: the same bytes as EncodeEntries. */
  function EncodeFront(es: seq<Entry>): seq<Byte> {
    if |es| == 0 then [] else EncodeEntry(es[0]) + EncodeFront(es[1..])
  }

  lemma {:induction false} EncodeFrontIsEncode(es: seq<Entry>)
    ensures EncodeFront(es) == EncodeEntries(es)
  {
    if |es| > 0 {
      var n := |es| - 1;
      EncodeFrontIsEncode(es[1..]);
      if n > 0 {
        EncodeFrontIsEncode(es[..n]);
        EncodeFrontIsEncode(es[1..][..n - 1]);
        assert es[..n][1..] == es[1..][..n - 1];
        assert es[1..][n - 1] == es[n];
        assert es[..n][0] == es[0];
      }
    }
  }

  /** The fields of an encoded entry read back from its bytes. */
  lemma EntryFields(e: Entry, tail: seq<Byte>)
    requires |e.blob| < U64
    ensures var b := EncodeEntry(e) + tail;
      |b| >= 12 + |e.blob| &&
      FromLittleEndian(b[..4]) == e.id && FromLittleEndian(b[4..12]) == |e.blob| &&
      b[12..12 + |e.blob|] == e.blob && b[12 + |e.blob|..] == tail
  {
    Pow256Widths();
    assert |e.blob| % U64 == |e.blob|;
    var id := LittleEndian(e.id, 4);
    var size := LittleEndian(|e.blob|, 8);
    LittleEndianRoundTrip(e.id, 4);
    LittleEndianRoundTrip(|e.blob|, 8);
    EntrySlices(id, size, e.blob, tail);
  }

  /** The four pieces of an entry followed by a tail, sliced back out. */
  lemma EntrySlices(id: seq<Byte>, size: seq<Byte>, blob: seq<Byte>, tail: seq<Byte>)
    requires |id| == 4 && |size| == 8
    ensures var b := id + size + blob + tail;
      b[..4] == id && b[4..12] == size && b[12..12 + |blob|] == blob && b[12 + |blob|..] == tail
  {
  }

  lemma {:induction false} DecodeEncodeEntries(es: seq<Entry>)
    requires forall i :: 0 <= i < |es| ==> |es[i].blob| < U64
    ensures DecodeEntries(EncodeFront(es), |es|) == Some(es)
  {
    if |es| > 0 {
      var e := es[0];
      var tail := EncodeFront(es[1..]);
      EntryFields(e, tail);
      DecodeEncodeEntries(es[1..]);
      assert [e] + es[1..] == es;
    }
  }

  lemma HeaderFields(magic: Uint32, count: Uint32, tail: seq<Byte>)
    ensures var b := LittleEndian(magic, 4) + LittleEndian(count, 4) + tail;
      |b| >= 8 && FromLittleEndian(b[..4]) == magic && FromLittleEndian(b[4..8]) == count && b[8..] == tail
  {
    var m := LittleEndian(magic, 4);
    var c := LittleEndian(count, 4);
    var b := m + c + tail;
    assert b[..4] == m && b[4..8] == c && b[8..] == tail;
    Pow256Widths();
    LittleEndianRoundTrip(magic, 4);
    LittleEndianRoundTrip(count, 4);
  }

  /** The layout is lossless: reading back what serialize_shader_cache writes
      gives the entries in the order it wrote them. */
  lemma SerializeRoundTrip(es: seq<Entry>)
    requires |es| < U32 && forall i :: 0 <= i < |es| ==> |es[i].blob| < U64
    ensures Decode(Encode(es)) == Some(es)
  {
    var count := |es| % U32;
    assert count == |es|;
    var b := Encode(es);
    HeaderFields(ShaderCacheMagic, count, EncodeEntries(es));
    EntriesRoundTrip(es);
    assert b[8..] == EncodeEntries(es) && FromLittleEndian(b[4..8]) == |es|;
  }

  /** The entries alone read back from the bytes EncodeEntries writes. */
  lemma EntriesRoundTrip(es: seq<Entry>)
    requires forall i :: 0 <= i < |es| ==> |es[i].blob| < U64
    ensures DecodeEntries(EncodeEntries(es), |es|) == Some(es)
  {
    EncodeFrontIsEncode(es);
    DecodeEncodeEntries(es);
  }

  /** The order the cache's entries are visited in: each entry of the map once. */
  predicate Enumerates(order: seq<Entry>, entries: map<Uint32, Blob>) {
    (forall i :: 0 <= i < |order| ==> order[i].id in entries && entries[order[i].id] == order[i].blob) &&
    (forall id :: id in entries ==> exists i :: 0 <= i < |order| && order[i].id == id) &&
    (forall i, j :: 0 <= i < j < |order| ==> order[i].id != order[j].id)
  }

  /** The ids of the entries, as a set. */
  function Ids(order: seq<Entry>): set<Uint32> {
    if |order| == 0 then {} else Ids(order[..|order| - 1]) + {order[|order| - 1].id}
  }

  lemma {:induction false} IdsOfDistinct(order: seq<Entry>)
    requires forall i, j :: 0 <= i < j < |order| ==> order[i].id != order[j].id
    ensures |Ids(order)| == |order|
  {
    if |order| > 0 {
      var n := |order| - 1;
      var prefix := order[..n];
      assert forall i, j :: 0 <= i < j < |prefix| ==> prefix[i].id != prefix[j].id by {
        forall i, j | 0 <= i < j < |prefix| ensures prefix[i].id != prefix[j].id {
          assert prefix[i] == order[i] && prefix[j] == order[j];
        }
      }
      IdsOfDistinct(prefix);
      NotAmongIds(prefix, order[n].id);
    }
  }

  /** An identifier no entry carries is not among the ids. */
  lemma NotAmongIds(order: seq<Entry>, id: Uint32)
    requires forall i :: 0 <= i < |order| ==> order[i].id != id
    ensures id !in Ids(order)
  {
    IdsMembers(order);
  }

  /** Ids collects the identifier of every entry and nothing else. */
  lemma {:induction false} IdsMembers(order: seq<Entry>)
    ensures forall id :: id in Ids(order) <==> exists i :: 0 <= i < |order| && order[i].id == id
  {
    if |order| > 0 {
      var n := |order| - 1;
      var prefix := order[..n];
      IdsMembers(prefix);
      forall id | id in Ids(order) ensures exists i :: 0 <= i < |order| && order[i].id == id {
        if id == order[n].id {
          assert order[n].id == id;
        } else {
          assert id in Ids(prefix);
          var i :| 0 <= i < |prefix| && prefix[i].id == id;
          assert order[i] == prefix[i];
        }
      }
      forall i | 0 <= i < |order| ensures order[i].id in Ids(order) {
        if i < n {
          assert prefix[i] == order[i];
        }
      }
    }
  }

  /** The count field is the size of the map: walking it visits |entries| entries. */
  lemma EnumerationCountsEntries(order: seq<Entry>, entries: map<Uint32, Blob>)
    requires Enumerates(order, entries)
    ensures |order| == |entries|
  {
    IdsOfDistinct(order);
    IdsMembers(order);
    assert Ids(order) == entries.Keys;
  }

  // ---------------------------------------------------------------------
  // The cache

  class ShaderCache {
    var entries: map<Uint32, Blob>

    constructor ()
      ensures entries == map[]
    {
      entries := map[];
    }

    /** create_pipeline's use of the cache: a found key supplies its blob as the
        cached pipeline state and the map is left alone; an absent key stores
        the blob of the newly created state; no key touches nothing. */
    method Create(key: Option<Uint32>, created: Blob) returns (cachedPso: Option<Blob>)
      modifies this
      ensures cachedPso == Lookup(old(entries), key)
      ensures entries == AfterCreate(old(entries), key, created)
    {
      var isCached := false;
      cachedPso := None;
      if key.Some? {
        if key.value in entries {
          cachedPso := Some(entries[key.value]);
          isCached := true;
        }
      }
      if !isCached && key.Some? {
        entries := entries[key.value := created];
      }
    }

    /** serialize_shader_cache: the bytes and the returned byte count, with the
        entries given in the order the map is walked. */
    method Serialize(order: seq<Entry>) returns (data: seq<Byte>, total: nat)
      requires Enumerates(order, entries)
      ensures data == Encode(order) && total == |data| == TotalBytes(order)
    {
      total := CountBytes(order);
      data := WriteBytes(order);
      EncodedSize(order);
    }
  }

  /** The first loop of serialize_shader_cache: the byte count. */
  method CountBytes(order: seq<Entry>) returns (total: nat)
    ensures total == TotalBytes(order)
  {
    total := 8;
    var i := 0;
    while i < |order|
      invariant 0 <= i <= |order|
      invariant total == TotalBytes(order[..i])
    {
      assert order[..i + 1][..i] == order[..i];
      total := total + 12 + |order[i].blob|;
      i := i + 1;
    }
    assert order[..i] == order;
  }

  /** The header and the second loop of serialize_shader_cache: the bytes. */
  method WriteBytes(order: seq<Entry>) returns (data: seq<Byte>)
    ensures data == Encode(order)
  {
    var header := LittleEndian(ShaderCacheMagic, 4) + LittleEndian(|order| % U32, 4);
    data := header;
    var i := 0;
    while i < |order|
      invariant 0 <= i <= |order|
      invariant data == header + EncodeEntries(order[..i])
    {
      assert order[..i + 1][..i] == order[..i];
      var e := order[i];
      data := data + LittleEndian(e.id, 4) + LittleEndian(|e.blob| % U64, 8) + e.blob;
      assert data == header + (EncodeEntries(order[..i]) + EncodeEntry(e));
      i := i + 1;
    }
    assert order[..i] == order;
  }

  /** The blob create_pipeline hands the driver as the cached state. */
  function Lookup(entries: map<Uint32, Blob>, key: Option<Uint32>): Option<Blob> {
    if key.Some? && key.value in entries then Some(entries[key.value]) else None
  }

  /** The map after create_pipeline. */
  function AfterCreate(entries: map<Uint32, Blob>, key: Option<Uint32>, created: Blob): map<Uint32, Blob> {
    if key.Some? && key.value !in entries then entries[key.value := created] else entries
  }

  /** A hit leaves the map unchanged; no key leaves it unchanged. */
  lemma HitOrNoKeyKeepsCache(entries: map<Uint32, Blob>, key: Option<Uint32>, created: Blob)
    requires key.None? || Lookup(entries, key).Some?
    ensures AfterCreate(entries, key, created) == entries
  {
  }

  /** After a miss the key is cached with the new blob, and the next creation
      with that key is a hit that returns it, whatever blob the driver makes. */
  lemma MissThenHit(entries: map<Uint32, Blob>, key: Uint32, created: Blob, later: Blob)
    requires key !in entries
    ensures Lookup(entries, Some(key)).None?
    ensures var after := AfterCreate(entries, Some(key), created);
      Lookup(after, Some(key)) == Some(created) && AfterCreate(after, Some(key), later) == after
  {
  }

  /** The cached blob of a key never changes once stored. */
  lemma {:induction false} StoredBlobIsStable(entries: map<Uint32, Blob>, keys: seq<Option<Uint32>>, blobs: seq<Blob>, key: Uint32)
    requires |keys| == |blobs| && key in entries
    ensures key in AfterCreateAll(entries, keys, blobs) && AfterCreateAll(entries, keys, blobs)[key] == entries[key]
    decreases |keys|
  {
    if |keys| > 0 {
      StoredBlobIsStable(AfterCreate(entries, keys[0], blobs[0]), keys[1..], blobs[1..], key);
    }
  }

  /** The map after a series of creations. */
  function AfterCreateAll(entries: map<Uint32, Blob>, keys: seq<Option<Uint32>>, blobs: seq<Blob>): map<Uint32, Blob>
    requires |keys| == |blobs|
    decreases |keys|
  {
    if |keys| == 0 then entries else AfterCreateAll(AfterCreate(entries, keys[0], blobs[0]), keys[1..], blobs[1..])
  }

  /** deserialize_shader_cache: a stub that accepts every input and loads no
      entry. */
  function Deserialize(entries: map<Uint32, Blob>, data: seq<Byte>): (r: (bool, map<Uint32, Blob>))
    ensures r.0 && r.1 == entries
  {
    (true, entries)
  }
}
