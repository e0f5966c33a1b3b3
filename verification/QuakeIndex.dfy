/** The quake asset index: its text form, written and read back. */
module QuakeIndex {
  import opened Results
  import opened Sequences
  import opened Sorting
  import opened Text
  import opened Words
  import opened IndexText

  const INDEX_VERSION: nat := 1
  datatype AssetKind = Bsp | Texture | Sound | Model | Wad | Cfg | RawOther

  datatype MountKind = DirMount | PakMount | Pk3Mount

  datatype Source =
    | LooseFile(root: string)
    | PakFile(pakPath: string, fileIndex: U64, offset: U32)
    | Pk3File(pk3Path: string, fileIndex: U64)

  datatype Entry = Entry(
    path: string, kind: AssetKind, size: U64, source: Source, mountOrder: U64, mountKind: MountKind, hash: U64)

  datatype Mount = Mount(
    order: U64, kind: MountKind, mountPoint: string, source: string, size: U64, modified: U64)

  type Entries = map<string, seq<Entry>>

  datatype Index = Index(version: U32, fingerprint: string, mounts: seq<Mount>, entries: Entries)

  datatype Field =
    | MountOrder | MountKindField | MountPoint | MountSource | MountSize | MountModified
    | EntryPath | EntryKind | EntrySize | EntryHash | EntryOrder | EntryMountKind
    | SourceKind | SourcePath | FileIndex | Offset | VersionField

  datatype ReadError =
    | Missing(field: Field)
    | Invalid(field: Field)
    | UnknownMountKind
    | UnknownEntryKind
    | UnknownSourceKind
    | MissingVersion
    | MissingFingerprint
    | UnsupportedVersion(version: U32)

  // ----- Names -----

  function KindName(kind: AssetKind): string {
    match kind
    case Bsp => "bsp"
    case Texture => "texture"
    case Sound => "sound"
    case Model => "model"
    case Wad => "wad"
    case Cfg => "cfg"
    case RawOther => "raw_other"
  }

  function KindOf(name: string): Option<AssetKind> {
    if name == "bsp" then Some(Bsp)
    else if name == "texture" then Some(Texture)
    else if name == "sound" then Some(Sound)
    else if name == "model" then Some(Model)
    else if name == "wad" then Some(Wad)
    else if name == "cfg" then Some(Cfg)
    else if name == "raw_other" then Some(RawOther)
    else None
  }

  function MountName(kind: MountKind): string {
    match kind case DirMount => "dir" case PakMount => "pak" case Pk3Mount => "pk3"
  }

  function ParseMountKind(name: string): Result<MountKind, ReadError> {
    if name == "dir" then Ok(DirMount)
    else if name == "pak" then Ok(PakMount)
    else if name == "pk3" then Ok(Pk3Mount)
    else Err(UnknownMountKind)
  }

  function SourceLabel(source: Source): string {
    match source case LooseFile(_) => "loose" case PakFile(_, _, _) => "pak" case Pk3File(_, _) => "pk3"
  }

  function PathOf(source: Source): string {
    match source case LooseFile(root) => root case PakFile(path, _, _) => path case Pk3File(path, _) => path
  }

  // ----- Writing -----

  function FileIndexText(source: Source): string {
    if source.LooseFile? then "" else Decimal(source.fileIndex)
  }

  function OffsetText(source: Source): string {
    if source.PakFile? then Decimal(source.offset) else ""
  }

  function MountFields(m: Mount): seq<string> {
    ["mount", Decimal(m.order), MountName(m.kind), EscapeField(m.mountPoint), EscapeField(m.source),
     Decimal(m.size), Decimal(m.modified)]
  }

  function EntryFields(key: string, e: Entry): seq<string> {
    ["entry", EscapeField(key), KindName(e.kind), Decimal(e.size), Decimal(e.hash), Decimal(e.mountOrder),
     MountName(e.mountKind), SourceLabel(e.source), EscapeField(PathOf(e.source)), FileIndexText(e.source),
     OffsetText(e.source)]
  }

  function MountLines(mounts: seq<Mount>): seq<string> {
    if mounts == [] then [] else
    MountLines(mounts[..|mounts| - 1]) + [Join(MountFields(mounts[|mounts| - 1]), '|')]
  }

  function ListLines(key: string, entries: seq<Entry>): seq<string> {
    if entries == [] then [] else
    ListLines(key, entries[..|entries| - 1]) + [Join(EntryFields(key, entries[|entries| - 1]), '|')]
  }

  function EntryLines(entries: Entries, keys: seq<string>): seq<string>
    requires forall k :: k in keys ==> k in entries
  {
    if keys == [] then [] else
    var last := keys[|keys| - 1];
    EntryLines(entries, keys[..|keys| - 1]) + ListLines(last, entries[last])
  }

  function EntryCount(entries: Entries, keys: seq<string>): nat
    requires forall k :: k in keys ==> k in entries
  {
    if keys == [] then 0 else
    EntryCount(entries, keys[..|keys| - 1]) + |entries[keys[|keys| - 1]]|
  }

  /** The order in which a sorted map lists its keys. */
  ghost predicate IsKeyOrder(keys: seq<string>, entries: Entries) {
    && (forall k :: k in keys <==> k in entries)
    && Ascending(keys)
  }

  function HeadLines(ix: Index): seq<string> {
    ["version=" + Decimal(ix.version), "fingerprint=" + ix.fingerprint, "mount_count=" + Decimal(|ix.mounts|)]
  }

  function WrittenLines(ix: Index, keys: seq<string>): seq<string>
    requires forall k :: k in keys ==> k in ix.entries
  {
    HeadLines(ix) + MountLines(ix.mounts) + ["entry_count=" + Decimal(EntryCount(ix.entries, keys))]
      + EntryLines(ix.entries, keys)
  }

  lemma {:induction false} MountLineAt(mounts: seq<Mount>, i: nat)
    requires i < |mounts|
    ensures |MountLines(mounts)| == |mounts|
    ensures MountLines(mounts)[i] == Join(MountFields(mounts[i]), '|')
  {
    var init := mounts[..|mounts| - 1];
    if i < |init| {
      MountLineAt(init, i);
    } else if init != [] {
      MountLineAt(init, 0);
    }
  }

  lemma {:induction false} ListLineCount(key: string, entries: seq<Entry>)
    ensures |ListLines(key, entries)| == |entries|
  {
    if entries != [] {
      ListLineCount(key, entries[..|entries| - 1]);
    }
  }

  lemma {:induction false} EntryLineCount(entries: Entries, keys: seq<string>)
    requires forall k :: k in keys ==> k in entries
    ensures |EntryLines(entries, keys)| == EntryCount(entries, keys)
  {
    if keys != [] {
      EntryLineCount(entries, keys[..|keys| - 1]);
      ListLineCount(keys[|keys| - 1], entries[keys[|keys| - 1]]);
    }
  }

  /** The two counters in a written file are the numbers of mount lines and of entry lines that follow them. */
  lemma {:induction false} CountersAreRight(ix: Index, keys: seq<string>, lines: seq<string>)
    requires forall k :: k in keys ==> k in ix.entries
    requires lines == WrittenLines(ix, keys)
    ensures |lines| >= 4 + |ix.mounts|
    ensures lines[2] == "mount_count=" + Decimal(|ix.mounts|)
    ensures forall i :: 0 <= i < |ix.mounts| ==> lines[3 + i] == Join(MountFields(ix.mounts[i]), '|')
    ensures lines[3 + |ix.mounts|] == "entry_count=" + Decimal(|lines| - 4 - |ix.mounts|)
    ensures lines[4 + |ix.mounts|..] == EntryLines(ix.entries, keys)
  {
    hide EntryLines, EntryCount;
    EntryLineCount(ix.entries, keys);
    if ix.mounts != [] {
      MountLineAt(ix.mounts, 0);
    }
    forall i | 0 <= i < |ix.mounts|
      ensures lines[3 + i] == Join(MountFields(ix.mounts[i]), '|')
    {
      MountLineAt(ix.mounts, i);
    }
  }

  // ----- Reading -----

  function StripPrefix(line: string, prefix: string): Option<string> {
    if prefix <= line then Some(line[|prefix|..]) else None
  }

  datatype Line =
    | Blank
    | Version(value: string)
    | Fingerprint(value: string)
    | Counter
    | MountRow(parts: seq<string>)
    | EntryRow(parts: seq<string>)
    | Ignored

  /** What a line is, decided in the order of the source. */
  function Classify(line: string): Line {
    if line == [] then Blank
    else if StripPrefix(line, "version=").Some? then Version(StripPrefix(line, "version=").value)
    else if StripPrefix(line, "fingerprint=").Some? then Fingerprint(StripPrefix(line, "fingerprint=").value)
    else if "mount_count=" <= line || "entry_count=" <= line then Counter
    else
      var parts := Split(line, '|');
      if parts[0] == "mount" then MountRow(parts)
      else if parts[0] == "entry" then EntryRow(parts)
      else Ignored
  }

  function Part(parts: seq<string>, i: nat, field: Field): Result<string, ReadError> {
    if i < |parts| then Ok(parts[i]) else Err(Missing(field))
  }

  function ParseU64(value: string, field: Field): Result<U64, ReadError> {
    var n := ParseUnsigned(Trim(value), U64_LIMIT);
    if n.Some? then Ok(n.value) else Err(Invalid(field))
  }

  function ParseU32(value: string, field: Field): Result<U32, ReadError> {
    var n := ParseUnsigned(Trim(value), U32_LIMIT);
    if n.Some? then Ok(n.value) else Err(Invalid(field))
  }

  /** A blank optional number reads as absent, and absent is stored as zero. */
  function ParseFileIndex(value: string): Result<U64, ReadError> {
    if Trim(value) == [] then Ok(0) else ParseU64(value, FileIndex)
  }

  function ParseOffset(value: string): Result<U32, ReadError> {
    if Trim(value) == [] then Ok(0) else ParseU32(value, Offset)
  }

  function ParseMount(parts: seq<string>): Result<Mount, ReadError> {
    var orderText :- Part(parts, 1, MountOrder);
    var order :- ParseU64(orderText, MountOrder);
    var kindText :- Part(parts, 2, MountKindField);
    var kind :- ParseMountKind(kindText);
    var mountPoint :- Part(parts, 3, MountPoint);
    var source :- Part(parts, 4, MountSource);
    var sizeText :- Part(parts, 5, MountSize);
    var size :- ParseU64(sizeText, MountSize);
    var modifiedText :- Part(parts, 6, MountModified);
    var modified :- ParseU64(modifiedText, MountModified);
    Ok(Mount(order, kind, Unescaped(mountPoint), Unescaped(source), size, modified))
  }

  function ParseSource(name: string, path: string, fileIndex: U64, offset: U32): Result<Source, ReadError> {
    if name == "loose" then Ok(LooseFile(path))
    else if name == "pak" then Ok(PakFile(path, fileIndex, offset))
    else if name == "pk3" then Ok(Pk3File(path, fileIndex))
    else Err(UnknownSourceKind)
  }

  function ParseEntrySource(parts: seq<string>): Result<Source, ReadError> {
    var name :- Part(parts, 7, SourceKind);
    var path :- Part(parts, 8, SourcePath);
    var fileIndexText :- Part(parts, 9, FileIndex);
    var fileIndex :- ParseFileIndex(fileIndexText);
    var offsetText :- Part(parts, 10, Offset);
    var offset :- ParseOffset(offsetText);
    ParseSource(name, Unescaped(path), fileIndex, offset)
  }

  function ParseEntry(parts: seq<string>): Result<Entry, ReadError> {
    var path :- Part(parts, 1, EntryPath);
    var kindText :- Part(parts, 2, EntryKind);
    var kind :- if KindOf(kindText).Some? then Ok(KindOf(kindText).value) else Err(UnknownEntryKind);
    var sizeText :- Part(parts, 3, EntrySize);
    var size :- ParseU64(sizeText, EntrySize);
    var hashText :- Part(parts, 4, EntryHash);
    var hash :- ParseU64(hashText, EntryHash);
    var orderText :- Part(parts, 5, EntryOrder);
    var mountOrder :- ParseU64(orderText, EntryOrder);
    var mountKindText :- Part(parts, 6, EntryMountKind);
    var mountKind :- ParseMountKind(mountKindText);
    var source :- ParseEntrySource(parts);
    Ok(Entry(Unescaped(path), kind, size, source, mountOrder, mountKind, hash))
  }

  /** What has been read so far. */
  datatype Partial = Partial(
    version: Option<U32>, fingerprint: Option<string>, mounts: seq<Mount>, entries: Entries)

  function Push(entries: Entries, e: Entry): Entries {
    entries[e.path := (if e.path in entries then entries[e.path] else []) + [e]]
  }

  /** What one line contributes. */
  datatype Item =
    | Nothing
    | VersionItem(version: U32)
    | FingerprintItem(fingerprint: string)
    | MountItem(mount: Mount)
    | EntryItem(entry: Entry)

  function ItemOfRow(row: Line): Result<Item, ReadError> {
    match row
    case Version(value) => var version :- ParseU32(value, VersionField); Ok(VersionItem(version))
    case Fingerprint(value) => Ok(FingerprintItem(Trim(value)))
    case MountRow(parts) => var mount :- ParseMount(parts); Ok(MountItem(mount))
    case EntryRow(parts) => var entry :- ParseEntry(parts); Ok(EntryItem(entry))
    case _ => Ok(Nothing)
  }

  function ItemOf(line: string): Result<Item, ReadError> {
    ItemOfRow(Classify(line))
  }

  function Add(sofar: Partial, item: Item): Partial {
    match item
    case Nothing => sofar
    case VersionItem(version) => sofar.(version := Some(version))
    case FingerprintItem(fingerprint) => sofar.(fingerprint := Some(fingerprint))
    case MountItem(mount) => sofar.(mounts := sofar.mounts + [mount])
    case EntryItem(entry) => sofar.(entries := Push(sofar.entries, entry))
  }

  /** Adds items up to the first error. */
  function AddAll(sofar: Partial, items: seq<Result<Item, ReadError>>): Result<Partial, ReadError> {
    if items == [] then Ok(sofar) else
    var n := |items| - 1;
    var before :- AddAll(sofar, items[..n]);
    var item :- items[n];
    Ok(Add(before, item))
  }

  /** Order of the entries of one path: by mount, then by the name of the source kind. */
  predicate EntryLe(a: Entry, b: Entry) {
    a.mountOrder < b.mountOrder ||
    (a.mountOrder == b.mountOrder && LexLe(SourceLabel(a.source), SourceLabel(b.source)))
  }

  function SortedEntries(entries: Entries): Entries {
    map k | k in entries :: Sort(entries[k], EntryLe)
  }

  function Finished(sofar: Partial): Result<Index, ReadError> {
    if sofar.version.None? then Err(MissingVersion)
    else if sofar.fingerprint.None? then Err(MissingFingerprint)
    else if sofar.version.value != INDEX_VERSION then Err(UnsupportedVersion(sofar.version.value))
    else Ok(Index(sofar.version.value, sofar.fingerprint.value, sofar.mounts, SortedEntries(sofar.entries)))
  }

  const NOTHING := Partial(None, None, [], map[])

  function Read(text: string): Result<Index, ReadError> {
    var sofar :- AddAll(NOTHING, Map(ItemOf, Lines(text)));
    Finished(sofar)
  }

  // ----- The two loops -----

  /** The text of an index, with its paths in the order of the map. */
  method WriteTo(ix: Index) returns (text: string)
    ensures exists keys :: IsKeyOrder(keys, ix.entries) && text == Join(WrittenLines(ix, keys), '\n')
  {
    var order := KeysInOrder(ix.entries);
    var lines := HeadLines(ix);
    var mounts := WriteMounts(ix.mounts);
    var count := CountEntries(ix.entries, order);
    var entries := WriteEntries(ix.entries, order);
    lines := lines + mounts + ["entry_count=" + Decimal(count)] + entries;
    text := Join(lines, '\n');
  }

  /** The keys of a map in the order in which a sorted map lists them. */
  method KeysInOrder(entries: Entries) returns (keys: seq<string>)
    ensures IsKeyOrder(keys, entries)
  {
    var left := entries.Keys;
    keys := [];
    while left != {}
      invariant left <= entries.Keys && Ascending(keys)
      invariant forall k :: k in keys <==> k in entries && k !in left
    {
      var key :| key in left;
      InsertedKey(key, keys);
      keys := Insert(key, keys, LexLe);
      left := left - {key};
    }
  }

  ghost predicate Ascending(keys: seq<string>) {
    forall i, j :: 0 <= i < j < |keys| ==> LexLe(keys[i], keys[j]) && keys[i] != keys[j]
  }

  lemma {:induction false} InsertedKey(key: string, keys: seq<string>)
    requires Ascending(keys) && key !in keys
    ensures Ascending(Insert(key, keys, LexLe))
    ensures forall k :: k in Insert(key, keys, LexLe) <==> k == key || k in keys
    decreases |keys|
  {
    if keys == [] {
    } else if LexLe(key, keys[0]) {
      forall j | 0 <= j < |keys|
        ensures LexLe(key, keys[j])
      {
        if j > 0 {
          LexTransitive(key, keys[0], keys[j]);
        }
      }
    } else {
      LexTotal(key, keys[0]);
      InsertedKey(key, keys[1..]);
      HeadAndRest(keys);
      var rest := Insert(key, keys[1..], LexLe);
      forall j | 0 <= j < |rest|
        ensures LexLe(keys[0], rest[j]) && keys[0] != rest[j]
      {
        assert rest[j] in rest;
      }
    }
  }

  method WriteMounts(mounts: seq<Mount>) returns (lines: seq<string>)
    ensures lines == MountLines(mounts)
  {
    lines := [];
    for i := 0 to |mounts|
      invariant lines == MountLines(mounts[..i])
    {
      assert mounts[..i + 1][..i] == mounts[..i];
      lines := lines + [Join(MountFields(mounts[i]), '|')];
    }
    assert mounts[..|mounts|] == mounts;
  }

  method WriteEntries(entries: Entries, keys: seq<string>) returns (lines: seq<string>)
    requires forall k :: k in keys ==> k in entries
    ensures lines == EntryLines(entries, keys)
  {
    lines := [];
    for i := 0 to |keys|
      invariant lines == EntryLines(entries, keys[..i])
    {
      assert keys[..i + 1][..i] == keys[..i];
      var more := WriteList(keys[i], entries[keys[i]]);
      lines := lines + more;
    }
    assert keys[..|keys|] == keys;
  }

  method CountEntries(entries: Entries, keys: seq<string>) returns (count: nat)
    requires forall k :: k in keys ==> k in entries
    ensures count == EntryCount(entries, keys)
  {
    count := 0;
    for i := 0 to |keys|
      invariant count == EntryCount(entries, keys[..i])
    {
      assert keys[..i + 1][..i] == keys[..i];
      count := count + |entries[keys[i]]|;
    }
    assert keys[..|keys|] == keys;
  }

  method WriteList(key: string, entries: seq<Entry>) returns (lines: seq<string>)
    ensures lines == ListLines(key, entries)
  {
    lines := [];
    for i := 0 to |entries|
      invariant lines == ListLines(key, entries[..i])
    {
      assert entries[..i + 1][..i] == entries[..i];
      lines := lines + [Join(EntryFields(key, entries[i]), '|')];
    }
    assert entries[..|entries|] == entries;
  }

  method ReadFrom(text: string) returns (result: Result<Index, ReadError>)
    ensures result == Read(text)
  {
    var sofar := AddItems(Map(ItemOf, Lines(text)));
    if sofar.Err? {
      return Err(sofar.error);
    }
    return Finished(sofar.value);
  }

  /** The loop over the lines; it stops at the first error. */
  method AddItems(items: seq<Result<Item, ReadError>>) returns (result: Result<Partial, ReadError>)
    ensures result == AddAll(NOTHING, items)
  {
    var sofar := NOTHING;
    for i := 0 to |items|
      invariant AddAll(NOTHING, items[..i]) == Ok(sofar)
    {
      assert items[..i + 1][..i] == items[..i];
      var item := items[i];
      if item.Err? {
        FirstErrorWins(NOTHING, items, i + 1);
        return Err(item.error);
      }
      sofar := Add(sofar, item.value);
    }
    assert items[..|items|] == items;
    return Ok(sofar);
  }

  lemma {:induction false} FirstErrorWins(sofar: Partial, items: seq<Result<Item, ReadError>>, n: nat)
    requires n <= |items| && AddAll(sofar, items[..n]).Err?
    ensures AddAll(sofar, items) == AddAll(sofar, items[..n])
  {
    if n < |items| {
      var init := items[..|items| - 1];
      assert init[..n] == items[..n];
      FirstErrorWins(sofar, init, n);
    } else {
      assert items[..n] == items;
    }
  }
}
