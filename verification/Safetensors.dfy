/** Repacking tensors from several safetensors files into one, and reading the result back. */
module Safetensors {
  import opened LittleEndian
  import opened Options
  import opened Sequences

  datatype Entry = Entry(dtype: string, shape: seq<nat>, start: int, end: int)

  /** A header value: a tensor's entry, or the free-form metadata, which has no data offsets. */
  datatype Value = Tensor(entry: Entry) | Metadata

  type Header = map<string, Value>

  const METADATA := "__metadata__"

  /** The JSON library. `loads` ignores trailing spaces, as every JSON parser does. */
  datatype Json = Json(dumps: Header -> Bytes, loads: Bytes -> Option<Header>)

  const SPACE: Byte := 32
  /** Bytes of the size field at the start of a file. */
  const SIZE_FIELD: nat := 8
  const CHUNK := 16 * 1024 * 1024

  function Spaces(n: nat): (s: Bytes)
    ensures |s| == n
  {
    seq(n, _ => SPACE)
  }

  ghost predicate Faithful(json: Json) {
    forall h, n: nat :: json.loads(json.dumps(h) + Spaces(n)) == Some(h)
  }

  /** `-n % 8` with Python's sign rule: what pads `n` to a multiple of 8. */
  function Padding(n: nat): (p: nat)
    ensures p < 8 && (n + p) % 8 == 0
  {
    var m: int := n;
    (-m) % 8
  }

  /** A file open for reading. `Read` may return less than asked for, but something unless at the end. */
  class Reader {
    const data: Bytes
    var pos: nat

    constructor (data: Bytes, pos: nat)
      ensures this.data == data && this.pos == pos
    {
      this.data, this.pos := data, pos;
    }

    /** A negative size reads to the end. */
    method Read(n: int) returns (chunk: Bytes)
      modifies this`pos
      ensures old(pos) <= pos && (old(pos) <= |data| ==> pos <= |data| && chunk == data[old(pos)..pos])
      ensures old(pos) >= |data| ==> chunk == [] && pos == old(pos)
      ensures n >= 0 ==> |chunk| <= n
      ensures n > 0 && old(pos) < |data| ==> chunk != []
      ensures n < 0 && old(pos) <= |data| ==> pos == |data|
    {
      if pos >= |data| || n == 0 {
        chunk := [];
      } else {
        var left := |data| - pos;
        var most := if n < 0 || left < n then left else n;
        var k: nat :| 1 <= k <= most && (n < 0 ==> k == left);
        chunk := data[pos..pos + k];
        pos := pos + k;
      }
    }
  }

  /** A file being written. */
  class Writer {
    var data: Bytes

    constructor ()
      ensures data == []
    {
      data := [];
    }

    method Write(chunk: Bytes)
      modifies this
      ensures data == old(data) + chunk
    {
      data := data + chunk;
    }
  }

  /** `file[from..from + length]` when that range exists. */
  predicate InFile(file: Bytes, from: int, length: int) {
    0 <= from && 0 <= length && from + length <= |file|
  }

  /** Copies exactly `length` bytes however short the reads are, or fails at the end of the file. */
  method CopyExact(source: Reader, destination: Writer, length: int) returns (ok: bool)
    modifies source`pos, destination
    ensures ok <==> length == 0 || InFile(source.data, old(source.pos), length)
    ensures ok && length > 0 ==>
              destination.data == old(destination.data) + source.data[old(source.pos)..old(source.pos) + length]
    ensures ok && length == 0 ==> destination.data == old(destination.data)
  {
    ghost var from := source.pos;
    var remaining := length;
    while remaining != 0
      invariant source.pos >= from
      invariant from < |source.data| ==> source.pos <= |source.data|
      invariant from >= |source.data| ==> source.pos == from
      invariant remaining == length - (source.pos - from)
      invariant length >= 0 ==> remaining >= 0
      invariant destination.data == old(destination.data) +
                (if from < |source.data| then source.data[from..source.pos] else [])
      decreases |source.data| - source.pos
    {
      var chunk := source.Read(if remaining < CHUNK then remaining else CHUNK);
      if chunk == [] {
        return false;
      }
      destination.Write(chunk);
      remaining := remaining - |chunk|;
    }
    ok := true;
  }

  /** `read_safetensors_header`: an 8-byte little-endian size, then that many bytes of JSON. */
  function ReadHeader(json: Json, file: Bytes): Option<(Header, nat)> {
    if |file| < 8 then None
    else
      var size := FromBytes(file[..8]);
      var end := if 8 + size <= |file| then 8 + size else |file|;
      match json.loads(file[8..end])
      case None => None
      case Some(h) => Some((h, 8 + size))
  }

  datatype Source = Source(file: Bytes, keys: seq<string>)

  /** One tensor to copy: where its bytes are, and under which name. */
  datatype Item = Item(file: Bytes, from: int, key: string, entry: Entry)
  {
    function Length(): int { entry.end - entry.start }
  }

  function ItemOf(file: Bytes, start: nat, key: string, entry: Entry): Item {
    Item(file, start + entry.start, key, entry)
  }

  /** The items of one source file, or none if its header cannot be read or a key is missing. */
  function SourceItems(json: Json, s: Source): Option<seq<Item>> {
    match ReadHeader(json, s.file)
    case None => None
    case Some((header, start)) => KeyItems(s.file, header, start, s.keys)
  }

  function KeyItems(file: Bytes, header: Header, start: nat, keys: seq<string>): Option<seq<Item>> {
    if keys == [] then Some([])
    else
      var n := |keys| - 1;
      match KeyItems(file, header, start, keys[..n])
      case None => None
      case Some(items) =>
        if keys[n] in header && header[keys[n]].Tensor? then Some(items + [ItemOf(file, start, keys[n], header[keys[n]].entry)])
        else None
  }

  function AllItems(json: Json, sources: seq<Source>): Option<seq<Item>> {
    if sources == [] then Some([])
    else
      var n := |sources| - 1;
      match AllItems(json, sources[..n])
      case None => None
      case Some(items) =>
        match SourceItems(json, sources[n])
        case None => None
        case Some(more) => Some(items + more)
  }

  lemma {:induction false} MissingStaysMissing(json: Json, sources: seq<Source>, n: nat)
    requires n <= |sources| && AllItems(json, sources[..n]).None?
    ensures AllItems(json, sources).None?
    decreases |sources|
  {
    if n < |sources| {
      assert sources[..|sources| - 1][..n] == sources[..n];
      MissingStaysMissing(json, sources[..|sources| - 1], n);
    } else {
      assert sources[..n] == sources;
    }
  }

  lemma {:induction false} MissingKey(file: Bytes, header: Header, start: nat, keys: seq<string>, n: nat)
    requires n <= |keys| && KeyItems(file, header, start, keys[..n]).None?
    ensures KeyItems(file, header, start, keys).None?
    decreases |keys|
  {
    if n < |keys| {
      assert keys[..|keys| - 1][..n] == keys[..n];
      MissingKey(file, header, start, keys[..|keys| - 1], n);
    } else {
      assert keys[..n] == keys;
    }
  }

  /** Where item `i` starts in the output's data section. */
  function OffsetOf(items: seq<Item>, i: nat): int
    requires i <= |items|
  {
    if i == 0 then 0 else OffsetOf(items, i - 1) + items[i - 1].Length()
  }

  function HeaderOf(items: seq<Item>): Header {
    if items == [] then map[METADATA := Metadata]
    else
      var n := |items| - 1;
      HeaderOf(items[..n])[items[n].key := Placed(items[n], OffsetOf(items, n))]
  }

  /** The output header's value for an item whose bytes start at `offset`. */
  function Placed(item: Item, offset: int): Value {
    Tensor(Entry(item.entry.dtype, item.entry.shape, offset, offset + item.Length()))
  }

  /** The bytes of an item can be copied: the offset is seekable and the range exists. */
  predicate Readable(item: Item) {
    item.from >= 0 && (item.Length() == 0 || InFile(item.file, item.from, item.Length()))
  }

  predicate AllReadable(items: seq<Item>) {
    forall i | 0 <= i < |items| :: Readable(items[i])
  }

  function BytesOf(item: Item): (b: Bytes)
    requires Readable(item)
    ensures |b| == item.Length()
  {
    if item.Length() == 0 then [] else item.file[item.from..item.from + item.Length()]
  }

  function DataOf(items: seq<Item>): Bytes
    requires AllReadable(items)
  {
    if items == [] then []
    else
      var n := |items| - 1;
      DataOf(items[..n]) + BytesOf(items[n])
  }

  function HeaderBytes(json: Json, items: seq<Item>): Bytes {
    var raw := json.dumps(HeaderOf(items));
    raw + Spaces(Padding(|raw|))
  }

  function Packed(json: Json, items: seq<Item>): Bytes
    requires AllReadable(items)
  {
    var header := HeaderBytes(json, items);
    ToBytes(|header|, SIZE_FIELD) + header + DataOf(items)
  }

  /** One key more. */
  lemma NextKey(file: Bytes, header: Header, start: nat, keys: seq<string>, k: nat)
    requires k < |keys| && KeyItems(file, header, start, keys[..k]).Some?
    ensures KeyItems(file, header, start, keys[..k + 1]) ==
            if keys[k] in header && header[keys[k]].Tensor?
            then Some(KeyItems(file, header, start, keys[..k]).value + [ItemOf(file, start, keys[k], header[keys[k]].entry)])
            else None
  {
    assert keys[..k + 1][..k] == keys[..k];
  }

  /** What the caller is told about each tensor: its size in bytes. */
  function SizesOf(items: seq<Item>): map<string, int> {
    if items == [] then map[]
    else
      var n := |items| - 1;
      SizesOf(items[..n])[items[n].key := items[n].Length()]
  }

  /** The four running results of gathering. */
  datatype Draft = Draft(entries: seq<Item>, header: Header, offset: int, sizes: map<string, int>)

  function DraftOf(items: seq<Item>): Draft {
    Draft(items, HeaderOf(items), OffsetOf(items, |items|), SizesOf(items))
  }

  lemma DraftNext(items: seq<Item>, item: Item)
    ensures DraftOf(items + [item]) ==
            var d := DraftOf(items);
            Draft(items + [item], d.header[item.key := Placed(item, d.offset)], d.offset + item.Length(), d.sizes[item.key := item.Length()])
  {
    AppendItem(items, item);
    assert (items + [item])[..|items|] == items;
  }

  /** The keys of one source, added to the running results. */
  method GatherKeys(before: Draft, file: Bytes, sourceHeader: Header, start: nat, keys: seq<string>) returns (ok: bool, draft: Draft)
    requires before == DraftOf(before.entries)
    ensures ok <==> KeyItems(file, sourceHeader, start, keys).Some?
    ensures ok ==> draft == DraftOf(before.entries + KeyItems(file, sourceHeader, start, keys).value)
  {
    draft := before;
    var k := 0;
    assert before.entries + [] == before.entries;
    while k < |keys|
      invariant 0 <= k <= |keys|
      invariant KeyItems(file, sourceHeader, start, keys[..k]).Some?
      invariant draft == DraftOf(before.entries + KeyItems(file, sourceHeader, start, keys[..k]).value)
    {
      var key := keys[k];
      NextKey(file, sourceHeader, start, keys, k);
      if key !in sourceHeader || sourceHeader[key].Metadata? {
        MissingKey(file, sourceHeader, start, keys, k + 1);
        ok := false;
        return;
      }
      var entry := sourceHeader[key].entry;
      var item := ItemOf(file, start, key, entry);
      DraftNext(draft.entries, item);
      Regroup(before.entries, KeyItems(file, sourceHeader, start, keys[..k]).value, [item]);
      draft := AddItem(draft, item);
      k := k + 1;
    }
    assert keys[..k] == keys;
    ok := true;
  }

  /** One loop body's four assignments. */
  method AddItem(draft: Draft, item: Item) returns (next: Draft)
    ensures next == Draft(draft.entries + [item], draft.header[item.key := Placed(item, draft.offset)],
                          draft.offset + item.Length(), draft.sizes[item.key := item.Length()])
  {
    var length := item.entry.end - item.entry.start;
    var value := Tensor(Entry(item.entry.dtype, item.entry.shape, draft.offset, draft.offset + length));
    next := draft.(header := draft.header[item.key := value]);
    next := next.(entries := next.entries + [item]);
    next := next.(sizes := next.sizes[item.key := length]);
    next := next.(offset := next.offset + length);
  }

  method GatherSources(json: Json, sources: seq<Source>) returns (ok: bool, draft: Draft)
    ensures ok <==> AllItems(json, sources).Some?
    ensures ok ==> draft == DraftOf(AllItems(json, sources).value)
  {
    draft := Draft([], map[METADATA := Metadata], 0, map[]);
    var s := 0;
    while s < |sources|
      invariant 0 <= s <= |sources|
      invariant AllItems(json, sources[..s]).Some? && draft == DraftOf(AllItems(json, sources[..s]).value)
    {
      var source := sources[s];
      assert sources[..s + 1][..s] == sources[..s];
      var parsed := ReadHeader(json, source.file);
      if parsed.None? {
        MissingStaysMissing(json, sources, s + 1);
        ok := false;
        return;
      }
      ok, draft := GatherKeys(draft, source.file, parsed.value.0, parsed.value.1, source.keys);
      if !ok {
        MissingStaysMissing(json, sources, s + 1);
        return;
      }
      s := s + 1;
    }
    assert sources[..s] == sources;
    ok := true;
  }

  /** Writing one more item extends what was written after `before`. */
  lemma NextItem(before: Bytes, items: seq<Item>, i: nat)
    requires i < |items| && AllReadable(items[..i]) && Readable(items[i])
    ensures AllReadable(items[..i + 1])
    ensures before + DataOf(items[..i]) + BytesOf(items[i]) == before + DataOf(items[..i + 1])
  {
    assert items[..i + 1][..i] == items[..i];
  }

  /** Seeks to one item and copies it. */
  method CopyItem(destination: Writer, item: Item) returns (ok: bool)
    modifies destination
    ensures ok <==> Readable(item)
    ensures ok ==> destination.data == old(destination.data) + BytesOf(item)
  {
    if item.from < 0 {
      return false;
    }
    var source := new Reader(item.file, item.from);
    ok := CopyExact(source, destination, item.Length());
  }

  method WriteItems(destination: Writer, entries: seq<Item>) returns (ok: bool)
    modifies destination
    ensures ok <==> AllReadable(entries)
    ensures ok ==> destination.data == old(destination.data) + DataOf(entries)
  {
    var i := 0;
    while i < |entries|
      invariant 0 <= i <= |entries|
      invariant AllReadable(entries[..i])
      invariant destination.data == old(destination.data) + DataOf(entries[..i])
    {
      ok := CopyItem(destination, entries[i]);
      if !ok {
        return;
      }
      NextItem(old(destination.data), entries, i);
      i := i + 1;
    }
    assert entries[..i] == entries;
    ok := true;
  }

  /** The header's length fits in its 8-byte size field. */
  predicate Sized(header: Bytes) { |header| < Power256(SIZE_FIELD) }

  /** Writes size, padded header and data. */
  method WriteFile(json: Json, entries: seq<Item>, outputHeader: Header) returns (r: Option<Bytes>)
    requires outputHeader == HeaderOf(entries)
    ensures r.Some? <==> Sized(HeaderBytes(json, entries)) && AllReadable(entries)
    ensures r.Some? ==> r.value == Packed(json, entries)
  {
    var raw := json.dumps(outputHeader);
    var header := raw + Spaces(Padding(|raw|));
    if !Sized(header) {
      return None;
    }
    var destination := new Writer();
    destination.Write(ToBytes(|header|, SIZE_FIELD));
    assert destination.data == ToBytes(|header|, SIZE_FIELD);
    destination.Write(header);
    var ok := WriteItems(destination, entries);
    r := if ok then Some(destination.data) else None;
  }

  /** `build_draft_safetensors`: gathers the items, then writes the file and returns the tensor sizes. It succeeds
      exactly when every source header and listed tensor is available and the new header's length fits its size
      field. Then reading the file back delivers every listed tensor from its own source, and nothing else. */
  method BuildDraft(json: Json, sources: seq<Source>) returns (r: Option<Bytes>, sizes: map<string, int>)
    ensures r.Some? <==>
              && AllItems(json, sources).Some?
              && Sized(HeaderBytes(json, AllItems(json, sources).value))
              && AllReadable(AllItems(json, sources).value)
    ensures r.Some? ==> r.value == Packed(json, AllItems(json, sources).value) && sizes == SizesOf(AllItems(json, sources).value)
    ensures AllItems(json, sources).Some? && AllReadable(AllItems(json, sources).value) <==> Complete(json, sources)
    ensures r.Some? && Faithful(json) ==> Delivers(json, sources, r.value, sizes)
  {
    ItemsAreComplete(json, sources);
    var ok, draft := GatherSources(json, sources);
    sizes := draft.sizes;
    if !ok {
      return None, sizes;
    }
    r := WriteFile(json, draft.entries, draft.header);
    if r.Some? && Faithful(json) {
      PackedDelivers(json, sources);
    }
  }

  lemma {:induction false} OffsetPrefix(items: seq<Item>, more: seq<Item>, i: nat)
    requires i <= |items|
    ensures OffsetOf(items + more, i) == OffsetOf(items, i)
  {
    if i > 0 {
      OffsetPrefix(items, more, i - 1);
    }
  }

  lemma AppendItem(items: seq<Item>, item: Item)
    ensures OffsetOf(items + [item], |items| + 1) == OffsetOf(items, |items|) + item.Length()
    ensures HeaderOf(items + [item]) == HeaderOf(items)[item.key := Placed(item, OffsetOf(items, |items|))]
  {
    var all := items + [item];
    OffsetPrefix(items, [item], |items|);
    assert all[..|items|] == items && all[|items|] == item && |all| == |items| + 1;
    assert OffsetOf(all, |items| + 1) == OffsetOf(all, |items|) + item.Length();
  }

  lemma {:induction false} DataLength(items: seq<Item>)
    requires AllReadable(items)
    ensures |DataOf(items)| == OffsetOf(items, |items|)
  {
    if items != [] {
      DataLength(items[..|items| - 1]);
      LastOffset(items);
    }
  }

  lemma LastOffset(items: seq<Item>)
    requires items != []
    ensures var n := |items| - 1;
            && items == items[..n] + [items[n]]
            && OffsetOf(items, n) == OffsetOf(items[..n], n)
            && OffsetOf(items, n + 1) == OffsetOf(items, n) + items[n].Length()
  {
    var before, last := items[..|items| - 1], items[|items| - 1];
    SplitAtLast(items);
    OffsetPrefix(before, [last], |before|);
  }

  /** The last item's bytes follow those of the others. */
  lemma SplitLast(items: seq<Item>)
    requires items != [] && AllReadable(items)
    ensures var n := |items| - 1;
            && items == items[..n] + [items[n]]
            && |DataOf(items[..n])| == OffsetOf(items, n)
            && OffsetOf(items, n + 1) == OffsetOf(items, n) + |BytesOf(items[n])|
            && DataOf(items) == DataOf(items[..n]) + BytesOf(items[n])
  {
    LastOffset(items);
    DataLength(items[..|items| - 1]);
  }

  /** Item i's bytes are at its offset in the data section. */
  ghost predicate DataIsAt(items: seq<Item>, i: nat)
    requires i < |items| && AllReadable(items)
  {
    && 0 <= OffsetOf(items, i) <= OffsetOf(items, i + 1) <= |DataOf(items)|
    && DataOf(items)[OffsetOf(items, i)..OffsetOf(items, i + 1)] == BytesOf(items[i])
  }

  lemma LastDataIsAt(items: seq<Item>)
    requires items != [] && AllReadable(items)
    ensures DataIsAt(items, |items| - 1)
  {
    SplitLast(items);
    SliceOfLast(DataOf(items[..|items| - 1]), BytesOf(items[|items| - 1]));
  }

  lemma {:induction false} DataAt(items: seq<Item>, i: nat)
    requires i < |items| && AllReadable(items)
    ensures DataIsAt(items, i)
    decreases |items|
  {
    if i == |items| - 1 {
      LastDataIsAt(items);
    } else {
      DataAt(items[..|items| - 1], i);
      EarlierDataIsAt(items, i);
    }
  }

  lemma EarlierDataIsAt(items: seq<Item>, i: nat)
    requires i < |items| - 1 && AllReadable(items) && DataIsAt(items[..|items| - 1], i)
    ensures DataIsAt(items, i)
  {
    var before, last := items[..|items| - 1], items[|items| - 1];
    SplitLast(items);
    OffsetPrefix(before, [last], i);
    OffsetPrefix(before, [last], i + 1);
    SliceOfPrefix(DataOf(before), BytesOf(last), OffsetOf(items, i), OffsetOf(items, i + 1));
  }

  lemma SliceOfPrefix(a: Bytes, b: Bytes, lo: nat, hi: nat)
    requires lo <= hi <= |a|
    ensures (a + b)[lo..hi] == a[lo..hi]
  {
  }

  lemma SliceOfLast(a: Bytes, b: Bytes)
    ensures (a + b)[|a|..|a| + |b|] == b
  {
  }

  /** No later item has the name of item i. */
  ghost predicate LastOfName(items: seq<Item>, i: nat)
    requires i < |items|
  {
    forall j | i < j < |items| :: items[j].key != items[i].key
  }

  /** The returned sizes name exactly the items, each with the length of its last occurrence. */
  lemma {:induction false} SizesAreLengths(items: seq<Item>, i: nat)
    requires i < |items| && LastOfName(items, i)
    ensures items[i].key in SizesOf(items) && SizesOf(items)[items[i].key] == items[i].Length()
    decreases |items|
  {
    var n := |items| - 1;
    if i < n {
      assert LastOfName(items[..n], i);
      SizesAreLengths(items[..n], i);
    }
  }

  /** The header records the last item of each name. */
  lemma {:induction false} HeaderAt(items: seq<Item>, i: nat)
    requires i < |items| && LastOfName(items, i)
    ensures items[i].key in HeaderOf(items)
    ensures HeaderOf(items)[items[i].key] == Placed(items[i], OffsetOf(items, i))
    ensures OffsetOf(items, i + 1) == OffsetOf(items, i) + items[i].Length()
    decreases |items|
  {
    var n := |items| - 1;
    if i < n {
      var before := items[..n];
      assert items == before + [items[n]];
      assert LastOfName(before, i);
      HeaderAt(before, i);
      OffsetPrefix(before, [items[n]], i);
      OffsetPrefix(before, [items[n]], i + 1);
    }
  }

  ghost predicate Named(items: seq<Item>, key: string) {
    exists i :: 0 <= i < |items| && items[i].key == key
  }

  /** The header names exactly the items and the metadata, which is kept unless an item takes its name. */
  lemma {:induction false} HeaderNames(items: seq<Item>, key: string)
    ensures key in HeaderOf(items) <==> key == METADATA || Named(items, key)
    ensures !Named(items, METADATA) ==> METADATA in HeaderOf(items) && HeaderOf(items)[METADATA] == Metadata
  {
    if items != [] {
      var n := |items| - 1;
      HeaderNames(items[..n], key);
      assert items == items[..n] + [items[n]];
      NamedAppend(items[..n], items[n], key);
      NamedAppend(items[..n], items[n], METADATA);
    }
  }

  lemma NamedAppend(items: seq<Item>, item: Item, key: string)
    ensures Named(items + [item], key) <==> Named(items, key) || item.key == key
  {
    var all := items + [item];
    if Named(items, key) {
      var i :| 0 <= i < |items| && items[i].key == key;
      assert all[i].key == key;
    }
    assert all[|items|] == item;
  }

  /** The tensor a file gives back for one name: its header entry and the bytes that entry names. */
  ghost predicate GivesBack(header: Header, file: Bytes, start: nat, item: Item)
    requires Readable(item)
  {
    && item.key in header && header[item.key].Tensor?
    && var e := header[item.key].entry;
       && e.dtype == item.entry.dtype && e.shape == item.entry.shape
       && 0 <= e.start <= e.end && start + e.end <= |file|
       && file[start + e.start..start + e.end] == BytesOf(item)
  }

  /** The size field and the header come first. */
  predicate StartsWith(file: Bytes, header: Bytes) {
    8 + |header| <= |file| && file[..8] == ToBytes(|header|, SIZE_FIELD) && file[8..8 + |header|] == header
  }

  lemma PackedParts(json: Json, items: seq<Item>)
    requires AllReadable(items)
    ensures var file, start := Packed(json, items), 8 + |HeaderBytes(json, items)|;
            && start <= |file| && |file| == start + OffsetOf(items, |items|)
            && StartsWith(file, HeaderBytes(json, items))
            && file[start..] == DataOf(items)
  {
    DataLength(items);
  }

  lemma ItemGivenBack(json: Json, items: seq<Item>, i: nat)
    requires i < |items| && LastOfName(items, i) && AllReadable(items)
    ensures GivesBack(HeaderOf(items), Packed(json, items), 8 + |HeaderBytes(json, items)|, items[i])
  {
    var file, start := Packed(json, items), 8 + |HeaderBytes(json, items)|;
    PackedParts(json, items);
    HeaderAt(items, i);
    DataAt(items, i);
    SliceOfSuffix(file, start, OffsetOf(items, i), OffsetOf(items, i + 1));
    PlacedGivesBack(HeaderOf(items), file, start, items[i], OffsetOf(items, i));
  }

  lemma PlacedGivesBack(header: Header, file: Bytes, start: nat, item: Item, offset: nat)
    requires Readable(item) && start + offset + item.Length() <= |file|
    requires item.key in header && header[item.key] == Placed(item, offset)
    requires file[start + offset..start + (offset + item.Length())] == BytesOf(item)
    ensures GivesBack(header, file, start, item)
  {
  }

  lemma SliceOfSuffix(s: Bytes, start: nat, lo: nat, hi: nat)
    requires lo <= hi && start + hi <= |s|
    ensures s[start..][lo..hi] == s[start + lo..start + hi]
  {
  }

  lemma SizeReadBack(file: Bytes, header: Bytes)
    requires Sized(header) && StartsWith(file, header)
    ensures FromBytes(file[..8]) == |header|
  {
    StoreLoad(|header|, SIZE_FIELD);
  }

  lemma PaddingIsIgnored(json: Json, items: seq<Item>)
    requires Faithful(json)
    ensures json.loads(HeaderBytes(json, items)) == Some(HeaderOf(items)) && |HeaderBytes(json, items)| % 8 == 0
  {
  }

  lemma HeaderReadBack(json: Json, items: seq<Item>, file: Bytes)
    requires Faithful(json) && Sized(HeaderBytes(json, items)) && StartsWith(file, HeaderBytes(json, items))
    ensures ReadHeader(json, file) == Some((HeaderOf(items), 8 + |HeaderBytes(json, items)|))
    ensures |HeaderBytes(json, items)| % 8 == 0
  {
    SizeReadBack(file, HeaderBytes(json, items));
    PaddingIsIgnored(json, items);
  }

  /** Reading back: the header parser recovers the header and the data start of the file that was built,
      the data section is 8-byte aligned and complete, and each name (its last occurrence, if it is
      listed twice) gives back exactly its source bytes. */
  lemma ReadBack(json: Json, items: seq<Item>)
    requires Faithful(json) && Sized(HeaderBytes(json, items))
    requires AllReadable(items)
    ensures var file, start := Packed(json, items), 8 + |HeaderBytes(json, items)|;
            && ReadHeader(json, file) == Some((HeaderOf(items), start))
            && start % 8 == 0 && |file| == start + OffsetOf(items, |items|)
    ensures forall i | 0 <= i < |items| && LastOfName(items, i) ::
              && GivesBack(HeaderOf(items), Packed(json, items), 8 + |HeaderBytes(json, items)|, items[i])
              && items[i].key in SizesOf(items) && SizesOf(items)[items[i].key] == |BytesOf(items[i])|
  {
    PackedParts(json, items);
    HeaderReadBack(json, items, Packed(json, items));
    forall i | 0 <= i < |items| && LastOfName(items, i)
      ensures GivesBack(HeaderOf(items), Packed(json, items), 8 + |HeaderBytes(json, items)|, items[i])
      ensures items[i].key in SizesOf(items) && SizesOf(items)[items[i].key] == |BytesOf(items[i])|
    {
      ItemGivenBack(json, items, i);
      SizesAreLengths(items, i);
    }
  }

  lemma {:induction false} OffsetsGrow(items: seq<Item>, i: nat, j: nat)
    requires i <= j <= |items| && AllReadable(items)
    ensures OffsetOf(items, i) <= OffsetOf(items, j)
  {
    if i < j {
      OffsetsGrow(items, i, j - 1);
    }
  }

  /** The header's interval of item i contains data position p. */
  ghost predicate Covers(items: seq<Item>, i: nat, p: nat) {
    && i < |items| && items[i].key in HeaderOf(items)
    && var v := HeaderOf(items)[items[i].key];
       v.Tensor? && v.entry.start <= p < v.entry.end
  }

  /** Without repeated names the header's intervals tile the data section: every byte of it belongs to
      exactly one named tensor. */
  lemma IntervalsTile(items: seq<Item>, p: nat) returns (i: nat)
    requires AllReadable(items)
    requires forall i | 0 <= i < |items| :: LastOfName(items, i)
    requires p < OffsetOf(items, |items|)
    ensures Covers(items, i, p)
    ensures forall j | 0 <= j < |items| && Covers(items, j, p) :: j == i
  {
    i := Locate(items, p, |items|);
    HeaderAt(items, i);
    forall j | 0 <= j < |items| && Covers(items, j, p) ensures j == i {
      HeaderAt(items, j);
      if j < i {
        OffsetsGrow(items, j + 1, i);
      } else if j > i {
        OffsetsGrow(items, i + 1, j);
      }
    }
  }

  lemma {:induction false} Locate(items: seq<Item>, p: nat, n: nat) returns (i: nat)
    requires n <= |items| && p < OffsetOf(items, n)
    ensures i < n && OffsetOf(items, i) <= p < OffsetOf(items, i + 1)
  {
    if OffsetOf(items, n - 1) <= p {
      i := n - 1;
    } else {
      i := Locate(items, p, n - 1);
    }
  }

  // ---------------------------------------------------------------- the repack, from the source files alone

  /** The tensor `key` of a file can be copied out: its header names it with data offsets, which start at or
      after the beginning of the file and, unless they are empty, end inside it. */
  predicate Available(json: Json, file: Bytes, key: string) {
    var parsed := ReadHeader(json, file);
    && parsed.Some? && key in parsed.value.0 && parsed.value.0[key].Tensor?
    && var e, start := parsed.value.0[key].entry, parsed.value.1;
       0 <= start + e.start && e.start <= e.end && (e.start < e.end ==> start + e.end <= |file|)
  }

  /** Every source has a header, and every tensor listed for it. */
  ghost predicate Complete(json: Json, sources: seq<Source>) {
    && (forall i | 0 <= i < |sources| :: ReadHeader(json, sources[i].file).Some?)
    && forall i, j | 0 <= i < |sources| && 0 <= j < |sources[i].keys| :: Available(json, sources[i].file, sources[i].keys[j])
  }

  /** The output holds the source's tensor `key`: same dtype, shape, length and bytes. */
  ghost predicate SameTensor(json: Json, source: Bytes, output: Bytes, key: string) {
    && Available(json, source, key) && Available(json, output, key)
    && var (h, s), (h', s') := ReadHeader(json, source).value, ReadHeader(json, output).value;
       var e, e' := h[key].entry, h'[key].entry;
       && e'.dtype == e.dtype && e'.shape == e.shape && e'.end - e'.start == e.end - e.start
       && (e.start < e.end ==> output[s' + e'.start..s' + e'.end] == source[s + e.start..s + e.end])
  }

  /** The name at position j of source i is listed again after it, in that source or a later one. */
  ghost predicate ListedLater(sources: seq<Source>, i: nat, j: nat)
    requires i < |sources| && j < |sources[i].keys|
  {
    exists i', j' :: 0 <= i' < |sources| && 0 <= j' < |sources[i'].keys| && (i < i' || (i == i' && j < j'))
                     && sources[i'].keys[j'] == sources[i].keys[j]
  }

  ghost predicate Listed(sources: seq<Source>, key: string) {
    exists i, j :: 0 <= i < |sources| && 0 <= j < |sources[i].keys| && sources[i].keys[j] == key
  }

  /** What the repacked file is for: it names exactly the listed tensors and the metadata, and each name gives
      the tensor of the last source that lists it, whose size is the one returned. */
  ghost predicate Delivers(json: Json, sources: seq<Source>, output: Bytes, sizes: map<string, int>) {
    && ReadHeader(json, output).Some?
    && (forall key :: key in ReadHeader(json, output).value.0 <==> key == "__metadata__" || Listed(sources, key))
    && forall i, j | 0 <= i < |sources| && 0 <= j < |sources[i].keys| && !ListedLater(sources, i, j) ::
         && SameTensor(json, sources[i].file, output, sources[i].keys[j])
         && HasSize(json, sources[i].file, sources[i].keys[j], sizes)
  }

  /** The returned size of a tensor is the length of its interval in its source. */
  ghost predicate HasSize(json: Json, source: Bytes, key: string, sizes: map<string, int>)
    requires Available(json, source, key)
  {
    var e := ReadHeader(json, source).value.0[key].entry;
    key in sizes && sizes[key] == e.end - e.start
  }

  /** How many names the first `i` sources list. */
  ghost function Position(sources: seq<Source>, i: nat): nat
    requires i <= |sources|
  {
    if i == 0 then 0 else Position(sources, i - 1) + |sources[i - 1].keys|
  }

  lemma {:induction false} PositionPrefix(sources: seq<Source>, n: nat, i: nat)
    requires i <= n <= |sources|
    ensures Position(sources[..n], i) == Position(sources, i)
  {
    if i > 0 {
      PositionPrefix(sources, n, i - 1);
    }
  }

  lemma {:induction false} PositionGrows(sources: seq<Source>, i: nat, i': nat)
    requires i <= i' <= |sources|
    ensures Position(sources, i) <= Position(sources, i')
  {
    if i < i' {
      PositionGrows(sources, i, i' - 1);
    }
  }

  /** Every position below the total is that of one name of one source. */
  lemma {:induction false} AtPosition(sources: seq<Source>, n: nat, t: nat) returns (i: nat, j: nat)
    requires n <= |sources| && t < Position(sources, n)
    ensures i < n && j < |sources[i].keys| && t == Position(sources, i) + j
  {
    if Position(sources, n - 1) <= t {
      i, j := n - 1, t - Position(sources, n - 1);
    } else {
      i, j := AtPosition(sources, n - 1, t);
    }
  }

  /** The item that copies the tensor `key` of a file. */
  ghost predicate Copies(json: Json, file: Bytes, key: string, item: Item) {
    var parsed := ReadHeader(json, file);
    && parsed.Some? && key in parsed.value.0 && parsed.value.0[key].Tensor?
    && item == Item(file, parsed.value.1 + parsed.value.0[key].entry.start, key, parsed.value.0[key].entry)
  }

  lemma {:induction false} KeyItemAt(json: Json, source: Source, n: nat, j: nat)
    requires ReadHeader(json, source.file).Some? && j < n <= |source.keys|
    requires KeyItems(source.file, ReadHeader(json, source.file).value.0, ReadHeader(json, source.file).value.1, source.keys[..n]).Some?
    ensures var items := KeyItems(source.file, ReadHeader(json, source.file).value.0, ReadHeader(json, source.file).value.1, source.keys[..n]).value;
            |items| == n && Copies(json, source.file, source.keys[j], items[j])
    decreases n
  {
    assert source.keys[..n][..n - 1] == source.keys[..n - 1];
    if n > 1 {
      KeyItemAt(json, source, n - 1, if j < n - 1 then j else 0);
    }
  }

  /** One source gives one item per listed name. */
  lemma SourceItemsAt(json: Json, source: Source)
    requires SourceItems(json, source).Some?
    ensures |SourceItems(json, source).value| == |source.keys|
    ensures forall j | 0 <= j < |source.keys| :: Copies(json, source.file, source.keys[j], SourceItems(json, source).value[j])
  {
    assert source.keys[..|source.keys|] == source.keys;
    forall j | 0 <= j < |source.keys|
      ensures |SourceItems(json, source).value| == |source.keys|
      ensures Copies(json, source.file, source.keys[j], SourceItems(json, source).value[j])
    {
      KeyItemAt(json, source, |source.keys|, j);
    }
  }

  /** Each listed name has its item, at its position, and there are no others. */
  ghost predicate InOrder(json: Json, sources: seq<Source>, items: seq<Item>) {
    && |items| == Position(sources, |sources|)
    && forall i, j | 0 <= i < |sources| && 0 <= j < |sources[i].keys| ::
         Position(sources, i) + j < |items| && Copies(json, sources[i].file, sources[i].keys[j], items[Position(sources, i) + j])
  }

  lemma {:induction false} HeadersWereRead(json: Json, sources: seq<Source>, i: nat)
    requires AllItems(json, sources).Some? && i < |sources|
    ensures ReadHeader(json, sources[i].file).Some?
    decreases |sources|
  {
    if i < |sources| - 1 {
      HeadersWereRead(json, sources[..|sources| - 1], i);
    }
  }

  lemma {:induction false} ItemsInOrder(json: Json, sources: seq<Source>)
    requires AllItems(json, sources).Some?
    ensures InOrder(json, sources, AllItems(json, sources).value)
  {
    if sources != [] {
      var n := |sources| - 1;
      ItemsInOrder(json, sources[..n]);
      SourceItemsAt(json, sources[n]);
      InOrderNext(json, sources, AllItems(json, sources[..n]).value, SourceItems(json, sources[n]).value);
    }
  }

  lemma InOrderNext(json: Json, sources: seq<Source>, items: seq<Item>, more: seq<Item>)
    requires sources != [] && InOrder(json, sources[..|sources| - 1], items)
    requires var last := sources[|sources| - 1];
             |more| == |last.keys| && forall j | 0 <= j < |last.keys| :: Copies(json, last.file, last.keys[j], more[j])
    ensures InOrder(json, sources, items + more)
  {
    PositionPrefix(sources, |sources| - 1, |sources| - 1);
    forall i, j | 0 <= i < |sources| && 0 <= j < |sources[i].keys|
      ensures Position(sources, i) + j < |items + more| && Copies(json, sources[i].file, sources[i].keys[j], (items + more)[Position(sources, i) + j])
    {
      ItemNext(json, sources, items, more, i, j);
    }
  }

  lemma ItemNext(json: Json, sources: seq<Source>, items: seq<Item>, more: seq<Item>, i: nat, j: nat)
    requires sources != [] && InOrder(json, sources[..|sources| - 1], items) && i < |sources| && j < |sources[i].keys|
    requires var last := sources[|sources| - 1];
             |more| == |last.keys| && forall j | 0 <= j < |last.keys| :: Copies(json, last.file, last.keys[j], more[j])
    ensures Position(sources, i) + j < |items + more| && Copies(json, sources[i].file, sources[i].keys[j], (items + more)[Position(sources, i) + j])
  {
    var n := |sources| - 1;
    PositionPrefix(sources, n, i);
    PositionPrefix(sources, n, n);
    if i < n {
      assert sources[..n][i] == sources[i];
      assert Copies(json, sources[..n][i].file, sources[..n][i].keys[j], items[Position(sources[..n], i) + j]);
      assert (items + more)[Position(sources, i) + j] == items[Position(sources, i) + j];
    } else {
      assert (items + more)[|items| + j] == more[j];
    }
  }

  lemma {:induction false} KeysSuffice(file: Bytes, header: Header, start: nat, keys: seq<string>)
    requires forall j | 0 <= j < |keys| :: keys[j] in header && header[keys[j]].Tensor?
    ensures KeyItems(file, header, start, keys).Some?
  {
    if keys != [] {
      KeysSuffice(file, header, start, keys[..|keys| - 1]);
    }
  }

  lemma {:induction false} SourcesSuffice(json: Json, sources: seq<Source>)
    requires Complete(json, sources)
    ensures AllItems(json, sources).Some?
  {
    if sources != [] {
      var n := |sources| - 1;
      assert forall i | 0 <= i < n :: sources[..n][i] == sources[i];
      SourcesSuffice(json, sources[..n]);
      var (header, start) := ReadHeader(json, sources[n].file).value;
      assert forall j | 0 <= j < |sources[n].keys| :: Available(json, sources[n].file, sources[n].keys[j]);
      KeysSuffice(sources[n].file, header, start, sources[n].keys);
    }
  }

  lemma CopyIsAvailable(json: Json, file: Bytes, key: string, item: Item)
    requires Copies(json, file, key, item)
    ensures Readable(item) <==> Available(json, file, key)
  {
  }

  /** All items exist with all their bytes exactly when the sources are complete. */
  lemma ItemsAreComplete(json: Json, sources: seq<Source>)
    ensures AllItems(json, sources).Some? && AllReadable(AllItems(json, sources).value) <==> Complete(json, sources)
  {
    if Complete(json, sources) {
      SourcesSuffice(json, sources);
    }
    if AllItems(json, sources).Some? {
      var items := AllItems(json, sources).value;
      ItemsInOrder(json, sources);
      forall i | 0 <= i < |sources| ensures ReadHeader(json, sources[i].file).Some? {
        HeadersWereRead(json, sources, i);
      }
      forall i, j | 0 <= i < |sources| && 0 <= j < |sources[i].keys|
        ensures Position(sources, i) + j < |items|
        ensures Readable(items[Position(sources, i) + j]) <==> Available(json, sources[i].file, sources[i].keys[j])
      {
        CopyIsAvailable(json, sources[i].file, sources[i].keys[j], items[Position(sources, i) + j]);
      }
      if Complete(json, sources) {
        forall t | 0 <= t < |items| ensures Readable(items[t]) {
          var i, j := AtPosition(sources, |sources|, t);
          assert Available(json, sources[i].file, sources[i].keys[j]);
        }
      }
    }
  }

  /** A name not listed later has the last item of that name. */
  lemma {:induction false} LastListed(json: Json, sources: seq<Source>, items: seq<Item>, i: nat, j: nat)
    requires InOrder(json, sources, items) && i < |sources| && j < |sources[i].keys| && !ListedLater(sources, i, j)
    ensures Position(sources, i) + j < |items| && LastOfName(items, Position(sources, i) + j)
  {
    var t := Position(sources, i) + j;
    assert Copies(json, sources[i].file, sources[i].keys[j], items[t]);
    forall u | t < u < |items| ensures items[u].key != items[t].key {
      var i', j' := AtPosition(sources, |sources|, u);
      assert Copies(json, sources[i'].file, sources[i'].keys[j'], items[u]);
      if i' < i {
        PositionGrows(sources, i' + 1, i);
      }
    }
  }

  lemma NamedIsListed(json: Json, sources: seq<Source>, items: seq<Item>, key: string)
    requires InOrder(json, sources, items)
    ensures Named(items, key) <==> Listed(sources, key)
  {
    if Named(items, key) {
      var t :| 0 <= t < |items| && items[t].key == key;
      var i, j := AtPosition(sources, |sources|, t);
      assert Copies(json, sources[i].file, sources[i].keys[j], items[t]);
    }
    if Listed(sources, key) {
      var i, j :| 0 <= i < |sources| && 0 <= j < |sources[i].keys| && sources[i].keys[j] == key;
      assert Copies(json, sources[i].file, sources[i].keys[j], items[Position(sources, i) + j]);
    }
  }

  lemma SameTensorBack(json: Json, source: Bytes, output: Bytes, item: Item)
    requires Copies(json, source, item.key, item) && Readable(item) && ReadHeader(json, output).Some?
    requires GivesBack(ReadHeader(json, output).value.0, output, ReadHeader(json, output).value.1, item)
    ensures SameTensor(json, source, output, item.key)
  {
  }

  /** The file built from complete sources delivers them. */
  lemma PackedDelivers(json: Json, sources: seq<Source>)
    requires Faithful(json) && AllItems(json, sources).Some?
    requires AllReadable(AllItems(json, sources).value) && Sized(HeaderBytes(json, AllItems(json, sources).value))
    ensures Delivers(json, sources, Packed(json, AllItems(json, sources).value), SizesOf(AllItems(json, sources).value))
  {
    var items := AllItems(json, sources).value;
    var output := Packed(json, items);
    ItemsInOrder(json, sources);
    ReadBack(json, items);
    forall key ensures key in ReadHeader(json, output).value.0 <==> key == "__metadata__" || Listed(sources, key) {
      HeaderNames(items, key);
      NamedIsListed(json, sources, items, key);
    }
    forall i, j | 0 <= i < |sources| && 0 <= j < |sources[i].keys| && !ListedLater(sources, i, j)
      ensures SameTensor(json, sources[i].file, output, sources[i].keys[j])
      ensures HasSize(json, sources[i].file, sources[i].keys[j], SizesOf(items))
    {
      LastListed(json, sources, items, i, j);
      SameTensorBack(json, sources[i].file, output, items[Position(sources, i) + j]);
    }
  }
}
