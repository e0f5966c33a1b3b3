/** Reading a written quake index gives it back, exactly when it is one that building an index leaves behind. */
module QuakeIndexRoundTrip {
  import opened Results
  import opened Sequences
  import opened Sorting
  import opened Text
  import opened Words
  import opened IndexText
  import opened QuakeIndex

  /** What building leaves: lists under their own path, in order, none empty; a printable fingerprint. */
  ghost predicate Normal(ix: Index) {
    && ix.version == INDEX_VERSION
    && Trim(ix.fingerprint) == ix.fingerprint
    && '\n' !in ix.fingerprint
    && NormalEntries(ix.entries)
  }

  ghost predicate NormalEntries(entries: Entries) {
    forall k :: k in entries ==> NormalList(k, entries[k])
  }

  ghost predicate NormalList(key: string, list: seq<Entry>) {
    && list != []
    && Sorted(list, EntryLe)
    && AllUnder(key, list)
  }

  ghost predicate AllUnder(key: string, list: seq<Entry>) {
    forall i :: 0 <= i < |list| ==> list[i].path == key
  }

  // ----- Single lines -----

  lemma {:induction false} VersionLine(value: string)
    ensures Classify("version=" + value) == Version(value)
  {
    var line := "version=" + value;
    assert line[|"version="|..] == value;
  }

  lemma {:induction false} FingerprintLine(value: string)
    ensures Classify("fingerprint=" + value) == Fingerprint(value)
  {
    var line := "fingerprint=" + value;
    assert line[0] == 'f' && "version="[0] == 'v';
    assert line[|"fingerprint="|..] == value;
  }

  lemma {:induction false} MountCountLine(value: string)
    ensures Classify("mount_count=" + value) == Counter
  {
    var line := "mount_count=" + value;
    assert line[0] == 'm' && "version="[0] == 'v' && "fingerprint="[0] == 'f';
  }

  lemma {:induction false} EntryCountLine(value: string)
    ensures Classify("entry_count=" + value) == Counter
  {
    var line := "entry_count=" + value;
    assert line[0] == 'e' && "version="[0] == 'v' && "fingerprint="[0] == 'f';
  }

  lemma {:induction false} MountRowLine(fields: seq<string>)
    requires |fields| >= 2 && fields[0] == "mount" && forall i :: 0 <= i < |fields| ==> '|' !in fields[i]
    ensures Classify(Join(fields, '|')) == MountRow(fields)
  {
    var line := Join(fields, '|');
    assert line[0] == 'm' && "version="[0] == 'v' && "fingerprint="[0] == 'f' && "entry_count="[0] == 'e';
    assert line[5] == '|' && "mount_count="[5] == '_';
    SplitJoin(fields, '|');
  }

  lemma {:induction false} EntryRowLine(fields: seq<string>)
    requires |fields| >= 2 && fields[0] == "entry" && forall i :: 0 <= i < |fields| ==> '|' !in fields[i]
    ensures Classify(Join(fields, '|')) == EntryRow(fields)
  {
    var line := Join(fields, '|');
    assert line[0] == 'e' && "version="[0] == 'v' && "fingerprint="[0] == 'f' && "mount_count="[0] == 'm';
    assert line[5] == '|' && "entry_count="[5] == '_';
    SplitJoin(fields, '|');
  }

  // ----- Single fields -----

  lemma {:induction false} NamesReadBack(kind: AssetKind, mount: MountKind)
    ensures KindOf(KindName(kind)) == Some(kind)
    ensures ParseMountKind(MountName(mount)) == Ok(mount)
  {
  }

  lemma {:induction false} NumberReadsBack(n: U64, field: Field)
    ensures ParseU64(Decimal(n), field) == Ok(n)
  {
    ParsePrinted(n, U64_LIMIT);
  }

  lemma {:induction false} NumberIsOneField(n: nat)
    ensures OneField(Decimal(n))
  {
    assert !IsDigit('|') && !IsDigit('\n') && !IsDigit('\r');
  }

  lemma {:induction false} PrintedIsNotBlank(n: nat)
    ensures Trim(Decimal(n)) == Decimal(n) != []
  {
    var s := Decimal(n);
    DigitIsNotBlank(s[0]);
    DigitIsNotBlank(s[|s| - 1]);
    TrimNothing(s);
  }

  lemma {:induction false} FileIndexReadsBack(source: Source)
    ensures ParseFileIndex(FileIndexText(source)) == Ok(if source.LooseFile? then 0 else source.fileIndex)
  {
    if !source.LooseFile? {
      PrintedIsNotBlank(source.fileIndex);
      NumberReadsBack(source.fileIndex, FileIndex);
    }
  }

  lemma {:induction false} OffsetReadsBack(source: Source)
    ensures ParseOffset(OffsetText(source)) == Ok(if source.PakFile? then source.offset else 0)
  {
    if source.PakFile? {
      PrintedIsNotBlank(source.offset);
      ParsePrinted(source.offset, U32_LIMIT);
    }
  }

  lemma {:induction false} LabelReadsBack(source: Source)
    ensures ParseSource(SourceLabel(source), PathOf(source), if source.LooseFile? then 0 else source.fileIndex,
                        if source.PakFile? then source.offset else 0) == Ok(source)
  {
  }

  lemma {:induction false} MountFromParts(parts: seq<string>, m: Mount)
    requires |parts| == 7
    requires ParseU64(parts[1], MountOrder) == Ok(m.order) && ParseMountKind(parts[2]) == Ok(m.kind)
    requires Unescaped(parts[3]) == m.mountPoint && Unescaped(parts[4]) == m.source
    requires ParseU64(parts[5], MountSize) == Ok(m.size) && ParseU64(parts[6], MountModified) == Ok(m.modified)
    ensures ParseMount(parts) == Ok(m)
  {
  }

  lemma {:induction false} MountFieldsAre(m: Mount, parts: seq<string>)
    requires parts == MountFields(m)
    ensures |parts| == 7
    ensures parts[1] == Decimal(m.order) && parts[2] == MountName(m.kind)
    ensures parts[3] == EscapeField(m.mountPoint) && parts[4] == EscapeField(m.source)
    ensures parts[5] == Decimal(m.size) && parts[6] == Decimal(m.modified)
  {
  }

  lemma {:induction false} MountReadsBack(m: Mount, parts: seq<string>)
    requires parts == MountFields(m)
    ensures ParseMount(parts) == Ok(m)
  {
    MountFieldsAre(m, parts);
    NumberReadsBack(m.order, MountOrder);
    NumberReadsBack(m.size, MountSize);
    NumberReadsBack(m.modified, MountModified);
    NamesReadBack(Bsp, m.kind);
    UnescapeUndoesEscape(m.mountPoint);
    UnescapeUndoesEscape(m.source);
    MountFromParts(parts, m);
  }

  lemma {:induction false} SourceFromParts(parts: seq<string>, source: Source, i: U64, o: U32)
    requires |parts| == 11
    requires ParseFileIndex(parts[9]) == Ok(i) && ParseOffset(parts[10]) == Ok(o)
    requires ParseSource(parts[7], Unescaped(parts[8]), i, o) == Ok(source)
    ensures ParseEntrySource(parts) == Ok(source)
  {
  }

  lemma {:induction false} EntryFromParts(parts: seq<string>, e: Entry)
    requires |parts| == 11
    requires Unescaped(parts[1]) == e.path && KindOf(parts[2]) == Some(e.kind)
    requires ParseU64(parts[3], EntrySize) == Ok(e.size) && ParseU64(parts[4], EntryHash) == Ok(e.hash)
    requires ParseU64(parts[5], EntryOrder) == Ok(e.mountOrder) && ParseMountKind(parts[6]) == Ok(e.mountKind)
    requires ParseEntrySource(parts) == Ok(e.source)
    ensures ParseEntry(parts) == Ok(e)
  {
  }

  lemma {:induction false} EntryFieldsAre(key: string, e: Entry, parts: seq<string>)
    requires parts == EntryFields(key, e)
    ensures |parts| == 11 && parts[0] == "entry"
    ensures parts[1] == EscapeField(key) && parts[2] == KindName(e.kind)
    ensures parts[3] == Decimal(e.size) && parts[4] == Decimal(e.hash) && parts[5] == Decimal(e.mountOrder)
    ensures parts[6] == MountName(e.mountKind) && parts[7] == SourceLabel(e.source)
    ensures parts[8] == EscapeField(PathOf(e.source))
    ensures parts[9] == FileIndexText(e.source) && parts[10] == OffsetText(e.source)
  {
  }

  lemma {:induction false} SourceReadsBack(parts: seq<string>, source: Source)
    requires |parts| == 11
    requires parts[7] == SourceLabel(source) && parts[8] == EscapeField(PathOf(source))
    requires parts[9] == FileIndexText(source) && parts[10] == OffsetText(source)
    ensures ParseEntrySource(parts) == Ok(source)
  {
    FileIndexReadsBack(source);
    OffsetReadsBack(source);
    LabelReadsBack(source);
    UnescapeUndoesEscape(PathOf(source));
    SourceFromParts(parts, source, if source.LooseFile? then 0 else source.fileIndex,
                    if source.PakFile? then source.offset else 0);
  }

  lemma {:induction false} EntryReadsBack(key: string, e: Entry, parts: seq<string>)
    requires parts == EntryFields(key, e)
    ensures ParseEntry(parts) == Ok(e.(path := key))
  {
    EntryFieldsAre(key, e, parts);
    SourceReadsBack(parts, e.source);
    NumberReadsBack(e.size, EntrySize);
    NumberReadsBack(e.hash, EntryHash);
    NumberReadsBack(e.mountOrder, EntryOrder);
    NamesReadBack(e.kind, e.mountKind);
    UnescapeUndoesEscape(key);
    EntryFromParts(parts, e.(path := key));
  }

  lemma {:induction false} MountFieldsPlain(m: Mount)
    ensures forall i :: 0 <= i < |MountFields(m)| ==> OneField(MountFields(m)[i])
  {
    NumberIsOneField(m.order);
    NumberIsOneField(m.size);
    NumberIsOneField(m.modified);
    EscapedIsOneField(m.mountPoint);
    EscapedIsOneField(m.source);
  }

  lemma {:induction false} SourceTextsPlain(source: Source)
    ensures OneField(SourceLabel(source)) && OneField(EscapeField(PathOf(source)))
    ensures OneField(FileIndexText(source)) && OneField(OffsetText(source))
  {
    EscapedIsOneField(PathOf(source));
    if !source.LooseFile? {
      NumberIsOneField(source.fileIndex);
    }
    if source.PakFile? {
      NumberIsOneField(source.offset);
    }
  }

  lemma {:induction false} EntryFieldsPlain(key: string, e: Entry, parts: seq<string>)
    requires parts == EntryFields(key, e)
    ensures forall i :: 0 <= i < |parts| ==> OneField(parts[i])
  {
    EntryFieldsAre(key, e, parts);
    NumberIsOneField(e.size);
    NumberIsOneField(e.hash);
    NumberIsOneField(e.mountOrder);
    EscapedIsOneField(key);
    SourceTextsPlain(e.source);
    NamesPlain(e.kind, e.mountKind);
  }

  lemma {:induction false} NamesPlain(kind: AssetKind, mount: MountKind)
    ensures OneField(KindName(kind)) && OneField(MountName(mount))
  {
  }

  // ----- Whole lines -----

  lemma {:induction false} RowIsPlain(fields: seq<string>)
    requires |fields| >= 2 && fields[0] != [] && forall i :: 0 <= i < |fields| ==> OneField(fields[i])
    ensures PlainLine(Join(fields, '|'))
  {
    var line := Join(fields, '|');
    JoinKeepsOut(fields, '|', '\n');
    JoinKeepsOut(fields, '|', '\r');
    assert line[0] == fields[0][0];
    assert line[|line| - 1] in line;
  }

  lemma {:induction false} RowGives(line: string, row: Line, item: Item)
    requires Classify(line) == row && ItemOfRow(row) == Ok(item)
    ensures ItemOf(line) == Ok(item)
  {
  }

  lemma {:induction false} MountLineReadsBack(m: Mount)
    ensures PlainLine(Join(MountFields(m), '|'))
    ensures ItemOf(Join(MountFields(m), '|')) == Ok(MountItem(m))
  {
    var parts := MountFields(m);
    MountFieldsPlain(m);
    RowIsPlain(parts);
    MountRowLine(parts);
    MountReadsBack(m, parts);
    RowGives(Join(parts, '|'), MountRow(parts), MountItem(m));
  }

  lemma {:induction false} EntryLineIsPlain(key: string, e: Entry, parts: seq<string>)
    requires parts == EntryFields(key, e)
    ensures PlainLine(Join(parts, '|')) && Classify(Join(parts, '|')) == EntryRow(parts)
  {
    EntryFieldsAre(key, e, parts);
    EntryFieldsPlain(key, e, parts);
    RowIsPlain(parts);
    EntryRowLine(parts);
  }

  lemma {:induction false} EntryRowGives(parts: seq<string>, e: Entry)
    requires ParseEntry(parts) == Ok(e)
    ensures ItemOfRow(EntryRow(parts)) == Ok(EntryItem(e))
  {
  }

  lemma {:induction false} EntryLineReadsBack(key: string, e: Entry)
    ensures PlainLine(Join(EntryFields(key, e), '|'))
    ensures ItemOf(Join(EntryFields(key, e), '|')) == Ok(EntryItem(e.(path := key)))
  {
    var parts := EntryFields(key, e);
    EntryLineIsPlain(key, e, parts);
    EntryReadsBack(key, e, parts);
    EntryRowGives(parts, e.(path := key));
    RowGives(Join(parts, '|'), EntryRow(parts), EntryItem(e.(path := key)));
  }

  lemma {:induction false} NumberLineIsPlain(prefix: string, n: nat)
    requires prefix != [] && OneField(prefix)
    ensures PlainLine(prefix + Decimal(n))
  {
    var line := prefix + Decimal(n);
    NumberIsOneField(n);
    assert line[|line| - 1] in Decimal(n);
  }

  lemma {:induction false} VersionRow(value: string, version: U32)
    requires ParseUnsigned(Trim(value), U32_LIMIT) == Some(version)
    ensures ItemOfRow(Version(value)) == Ok(VersionItem(version))
  {
  }

  lemma {:induction false} VersionLineReadsBack(version: U32)
    ensures PlainLine("version=" + Decimal(version))
    ensures ItemOf("version=" + Decimal(version)) == Ok(VersionItem(version))
  {
    NumberLineIsPlain("version=", version);
    ParsePrinted(version, U32_LIMIT);
    VersionRow(Decimal(version), version);
    VersionLine(Decimal(version));
  }

  lemma {:induction false} FingerprintIsPlain(prefix: string, fingerprint: string)
    requires PlainLine(prefix) && Trim(fingerprint) == fingerprint && '\n' !in fingerprint
    ensures PlainLine(prefix + fingerprint)
  {
    var line := prefix + fingerprint;
    if fingerprint == [] {
      assert line == prefix;
    } else {
      assert line[|line| - 1] == fingerprint[|fingerprint| - 1];
      TrimTrims(fingerprint);
      assert !IsWhitespace(fingerprint[|fingerprint| - 1]) && IsWhitespace('\r');
    }
  }

  lemma {:induction false} FingerprintLineReadsBack(fingerprint: string)
    requires Trim(fingerprint) == fingerprint && '\n' !in fingerprint
    ensures PlainLine("fingerprint=" + fingerprint)
    ensures ItemOf("fingerprint=" + fingerprint) == Ok(FingerprintItem(fingerprint))
  {
    FingerprintLine(fingerprint);
    FingerprintIsPlain("fingerprint=", fingerprint);
    RowGives("fingerprint=" + fingerprint, Fingerprint(fingerprint), FingerprintItem(fingerprint));
  }

  lemma {:induction false} CounterLinesReadBack(n: nat)
    ensures PlainLine("mount_count=" + Decimal(n)) && ItemOf("mount_count=" + Decimal(n)) == Ok(Nothing)
    ensures PlainLine("entry_count=" + Decimal(n)) && ItemOf("entry_count=" + Decimal(n)) == Ok(Nothing)
  {
    NumberLineIsPlain("mount_count=", n);
    NumberLineIsPlain("entry_count=", n);
    MountCountLine(Decimal(n));
    EntryCountLine(Decimal(n));
  }

  // ----- Lists of lines and the items they give -----

  predicate AllPlain(lines: seq<string>) {
    forall i :: 0 <= i < |lines| ==> PlainLine(lines[i])
  }

  function MountItems(mounts: seq<Mount>): seq<Result<Item, ReadError>> {
    if mounts == [] then [] else MountItems(mounts[..|mounts| - 1]) + [Ok(MountItem(mounts[|mounts| - 1]))]
  }

  function ListItems(list: seq<Entry>): seq<Result<Item, ReadError>> {
    if list == [] then [] else ListItems(list[..|list| - 1]) + [Ok(EntryItem(list[|list| - 1]))]
  }

  function EntryItems(entries: Entries, keys: seq<string>): seq<Result<Item, ReadError>>
    requires forall k :: k in keys ==> k in entries
  {
    if keys == [] then [] else
    EntryItems(entries, keys[..|keys| - 1]) + ListItems(entries[keys[|keys| - 1]])
  }

  lemma {:induction false} MountLinesGive(mounts: seq<Mount>)
    ensures AllPlain(MountLines(mounts)) && Map(ItemOf, MountLines(mounts)) == MountItems(mounts)
  {
    if mounts != [] {
      var init, last := mounts[..|mounts| - 1], mounts[|mounts| - 1];
      MountLinesGive(init);
      MountLineReadsBack(last);
      MapOneMore(ItemOf, MountLines(init), Join(MountFields(last), '|'), Ok(MountItem(last)));
    }
  }

  lemma {:induction false} ListLinesGive(key: string, list: seq<Entry>)
    requires AllUnder(key, list)
    ensures AllPlain(ListLines(key, list)) && Map(ItemOf, ListLines(key, list)) == ListItems(list)
  {
    if list != [] {
      var init, last := list[..|list| - 1], list[|list| - 1];
      ListLinesGive(key, init);
      EntryLineReadsBack(key, last);
      assert last.(path := key) == last;
      MapOneMore(ItemOf, ListLines(key, init), Join(EntryFields(key, last), '|'), Ok(EntryItem(last)));
    }
  }

  lemma {:induction false} EntryLinesGive(entries: Entries, keys: seq<string>)
    requires NormalEntries(entries) && forall k :: k in keys ==> k in entries
    ensures AllPlain(EntryLines(entries, keys)) && Map(ItemOf, EntryLines(entries, keys)) == EntryItems(entries, keys)
  {
    if keys != [] {
      var init, last := keys[..|keys| - 1], keys[|keys| - 1];
      EntryLinesGive(entries, init);
      assert NormalList(last, entries[last]);
      ListLinesGive(last, entries[last]);
      MapAppend(ItemOf, EntryLines(entries, init), ListLines(last, entries[last]));
    }
  }

  function HeadItems(ix: Index): seq<Result<Item, ReadError>> {
    [Ok(VersionItem(ix.version)), Ok(FingerprintItem(ix.fingerprint)), Ok(Nothing)]
  }

  lemma {:induction false} HeadLinesGive(ix: Index)
    requires Trim(ix.fingerprint) == ix.fingerprint && '\n' !in ix.fingerprint
    ensures AllPlain(HeadLines(ix)) && Map(ItemOf, HeadLines(ix)) == HeadItems(ix)
  {
    VersionLineReadsBack(ix.version);
    FingerprintLineReadsBack(ix.fingerprint);
    CounterLinesReadBack(|ix.mounts|);
    ThreeLines(ItemOf, "version=" + Decimal(ix.version), "fingerprint=" + ix.fingerprint,
               "mount_count=" + Decimal(|ix.mounts|), HeadItems(ix));
  }

  lemma {:induction false} ThreeLines<B>(f: string -> B, a: string, b: string, c: string, images: seq<B>)
    requires PlainLine(a) && PlainLine(b) && PlainLine(c)
    requires |images| == 3 && f(a) == images[0] && f(b) == images[1] && f(c) == images[2]
    ensures AllPlain([a, b, c]) && Map(f, [a, b, c]) == images
  {
  }

  function WrittenItems(ix: Index, keys: seq<string>): seq<Result<Item, ReadError>>
    requires forall k :: k in keys ==> k in ix.entries
  {
    HeadItems(ix) + MountItems(ix.mounts) + [Ok(Nothing)] + EntryItems(ix.entries, keys)
  }

  lemma {:induction false} WrittenLinesGive(ix: Index, keys: seq<string>)
    requires Normal(ix) && forall k :: k in keys ==> k in ix.entries
    ensures AllPlain(WrittenLines(ix, keys)) && Map(ItemOf, WrittenLines(ix, keys)) == WrittenItems(ix, keys)
  {
    hide ItemOf;
    var count := "entry_count=" + Decimal(EntryCount(ix.entries, keys));
    HeadLinesGive(ix);
    MountLinesGive(ix.mounts);
    CounterLinesReadBack(EntryCount(ix.entries, keys));
    EntryLinesGive(ix.entries, keys);
    MapAppend(ItemOf, HeadLines(ix), MountLines(ix.mounts));
    MapOneMore(ItemOf, HeadLines(ix) + MountLines(ix.mounts), count, Ok(Nothing));
    MapAppend(ItemOf, HeadLines(ix) + MountLines(ix.mounts) + [count], EntryLines(ix.entries, keys));
  }

  // ----- Adding the items up -----

  lemma {:induction false} AddAllSplits(
      before: Partial, first: seq<Result<Item, ReadError>>, second: seq<Result<Item, ReadError>>)
    requires AddAll(before, first).Ok?
    ensures AddAll(before, first + second) == AddAll(AddAll(before, first).value, second)
  {
    if second == [] {
      assert first + second == first;
    } else {
      var init := second[..|second| - 1];
      AddAllSplits(before, first, init);
      assert (first + second)[..|first + second| - 1] == first + init;
    }
  }

  lemma {:induction false} AddOne(before: Partial, items: seq<Result<Item, ReadError>>, item: Item)
    requires AddAll(before, items).Ok?
    ensures AddAll(before, items + [Ok(item)]) == Ok(Add(AddAll(before, items).value, item))
  {
    assert (items + [Ok(item)])[..|items|] == items;
  }

  lemma {:induction false} MountsAddUp(before: Partial, mounts: seq<Mount>)
    ensures AddAll(before, MountItems(mounts)) == Ok(before.(mounts := before.mounts + mounts))
  {
    if mounts == [] {
      assert before.mounts + mounts == before.mounts;
    } else {
      var init, last := mounts[..|mounts| - 1], mounts[|mounts| - 1];
      MountsAddUp(before, init);
      AddOne(before, MountItems(init), MountItem(last));
      Appended(before.mounts, init, [last]);
      assert mounts == init + [last];
    }
  }

  /** The entries of one path, read into a map without that path. */
  lemma {:induction false} ListAddsUp(before: Partial, key: string, list: seq<Entry>)
    requires key !in before.entries && AllUnder(key, list)
    ensures AddAll(before, ListItems(list))
         == Ok(if list == [] then before else before.(entries := before.entries[key := list]))
  {
    if list != [] {
      var init, last := list[..|list| - 1], list[|list| - 1];
      ListAddsUp(before, key, init);
      AddOne(before, ListItems(init), EntryItem(last));
      assert list == init + [last] && last.path == key;
      PushOne(before.entries, key, init, last);
    }
  }

  lemma {:induction false} PushOne(entries: Entries, key: string, init: seq<Entry>, last: Entry)
    requires key !in entries && last.path == key
    ensures Push(if init == [] then entries else entries[key := init], last) == entries[key := init + [last]]
  {
    if init == [] {
      assert [] + [last] == [last];
      assert init + [last] == [last];
    }
  }

  function Restricted(entries: Entries, keys: seq<string>): Entries {
    map k | k in entries && k in keys :: entries[k]
  }

  lemma {:induction false} RestrictedOneMore(entries: Entries, init: seq<string>, last: string)
    requires last in entries
    ensures Restricted(entries, init + [last]) == Restricted(entries, init)[last := entries[last]]
  {
  }

  lemma {:induction false} EntriesAddUp(before: Partial, entries: Entries, keys: seq<string>)
    requires NormalEntries(entries) && before.entries == map[]
    requires forall k :: k in keys ==> k in entries
    requires forall i, j :: 0 <= i < j < |keys| ==> keys[i] != keys[j]
    ensures AddAll(before, EntryItems(entries, keys)) == Ok(before.(entries := Restricted(entries, keys)))
  {
    if keys == [] {
      assert Restricted(entries, keys) == map[];
    } else {
      var init, last := keys[..|keys| - 1], keys[|keys| - 1];
      EntriesAddUp(before, entries, init);
      assert NormalList(last, entries[last]);
      var middle := before.(entries := Restricted(entries, init));
      ListAddsUp(middle, last, entries[last]);
      AddAllSplits(before, EntryItems(entries, init), ListItems(entries[last]));
      RestrictedOneMore(entries, init, last);
      assert keys == init + [last];
    }
  }

  lemma {:induction false} HeadAddsUp(ix: Index)
    ensures AddAll(NOTHING, HeadItems(ix)) == Ok(Partial(Some(ix.version), Some(ix.fingerprint), [], map[]))
  {
    var items := HeadItems(ix);
    AddOne(NOTHING, [], VersionItem(ix.version));
    assert [] + [items[0]] == [items[0]];
    AddOne(NOTHING, [items[0]], FingerprintItem(ix.fingerprint));
    AddOne(NOTHING, [items[0]] + [items[1]], Nothing);
    assert [items[0]] + [items[1]] + [items[2]] == items;
  }

  lemma {:induction false} WrittenAddsUp(ix: Index, keys: seq<string>)
    requires Normal(ix) && IsKeyOrder(keys, ix.entries)
    ensures AddAll(NOTHING, WrittenItems(ix, keys))
         == Ok(Partial(Some(ix.version), Some(ix.fingerprint), ix.mounts, ix.entries))
  {
    var p1 := Partial(Some(ix.version), Some(ix.fingerprint), [], map[]);
    var head := HeadItems(ix) + MountItems(ix.mounts);
    HeadAddsUp(ix);
    MountsAddUp(p1, ix.mounts);
    assert [] + ix.mounts == ix.mounts;
    AddAllSplits(NOTHING, HeadItems(ix), MountItems(ix.mounts));
    AddOne(NOTHING, head, Nothing);
    EntriesAddUp(p1.(mounts := ix.mounts), ix.entries, keys);
    AddAllSplits(NOTHING, head + [Ok(Nothing)], EntryItems(ix.entries, keys));
    assert Restricted(ix.entries, keys) == ix.entries;
  }

  /** Reading undoes writing for every index that building can leave behind. */
  lemma {:induction false} ReadUndoesWrite(ix: Index, keys: seq<string>)
    requires Normal(ix) && IsKeyOrder(keys, ix.entries)
    ensures Read(Join(WrittenLines(ix, keys), '\n')) == Ok(ix)
  {
    WrittenLinesGive(ix, keys);
    LinesOfJoined(WrittenLines(ix, keys));
    WrittenAddsUp(ix, keys);
    SortingChangesNothing(ix.entries);
  }

  lemma {:induction false} SortingChangesNothing(entries: Entries)
    requires NormalEntries(entries)
    ensures SortedEntries(entries) == entries
  {
    forall k | k in entries
      ensures SortedEntries(entries)[k] == entries[k]
    {
      assert NormalList(k, entries[k]);
      SortOfSortedIsIdentity(entries[k], EntryLe);
    }
  }

  // ----- Whatever is read is normal -----

  ghost predicate PartialOk(p: Partial) {
    && (p.fingerprint.Some? ==> Trim(p.fingerprint.value) == p.fingerprint.value && '\n' !in p.fingerprint.value)
    && ListsOk(p.entries)
  }

  lemma {:induction false} TrimKeepsOut(s: string, c: char)
    requires c !in s
    ensures c !in Trim(s)
  {
    TrimStartTrims(s);
    TrimEndTrims(TrimStart(s));
  }

  /** An item whose fingerprint, if it is one, is trimmed and on one line. */
  predicate ItemOk(item: Item) {
    item.FingerprintItem? ==> Trim(item.fingerprint) == item.fingerprint && '\n' !in item.fingerprint
  }

  lemma {:induction false} FingerprintInLine(line: string)
    requires '\n' !in line
    ensures Classify(line).Fingerprint? ==> '\n' !in Classify(line).value
  {
  }

  lemma {:induction false} RowItemOk(row: Line)
    requires row.Fingerprint? ==> '\n' !in row.value
    ensures ItemOfRow(row).Ok? ==> ItemOk(ItemOfRow(row).value)
  {
    if row.Fingerprint? {
      TrimKeepsOut(row.value, '\n');
      TrimIsTrimmed(row.value);
    }
  }

  ghost predicate ListsOk(entries: Entries) {
    forall k :: k in entries ==> ListOk(k, entries[k])
  }

  ghost predicate ListOk(key: string, list: seq<Entry>) { list != [] && AllUnder(key, list) }

  lemma {:induction false} PushKeepsOk(entries: Entries, e: Entry)
    requires ListsOk(entries)
    ensures ListsOk(Push(entries, e))
  {
    var before := if e.path in entries then entries[e.path] else [];
    assert ListOk(e.path, before + [e]) by {
      assert e.path in entries ==> ListOk(e.path, entries[e.path]);
    }
    forall k | k in Push(entries, e)
      ensures ListOk(k, Push(entries, e)[k])
    {
      assert k != e.path ==> ListOk(k, entries[k]);
    }
  }

  lemma {:induction false} AddKeepsOk(before: Partial, item: Item)
    requires PartialOk(before) && ItemOk(item)
    ensures PartialOk(Add(before, item))
  {
    if item.EntryItem? {
      PushKeepsOk(before.entries, item.entry);
    }
  }

  lemma {:induction false} AddAllKeepsOk(before: Partial, items: seq<Result<Item, ReadError>>)
    requires PartialOk(before)
    requires forall i :: 0 <= i < |items| && items[i].Ok? ==> ItemOk(items[i].value)
    ensures AddAll(before, items).Ok? ==> PartialOk(AddAll(before, items).value)
  {
    if items != [] {
      var init := items[..|items| - 1];
      AddAllKeepsOk(before, init);
      if AddAll(before, items).Ok? {
        AddKeepsOk(AddAll(before, init).value, items[|items| - 1].value);
      }
    }
  }

  lemma {:induction false} ReadPartialOk(lines: seq<string>)
    requires forall i :: 0 <= i < |lines| ==> '\n' !in lines[i]
    ensures AddAll(NOTHING, Map(ItemOf, lines)).Ok? ==> PartialOk(AddAll(NOTHING, Map(ItemOf, lines)).value)
  {
    var items := Map(ItemOf, lines);
    forall i | 0 <= i < |items| && items[i].Ok?
      ensures ItemOk(items[i].value)
    {
      FingerprintInLine(lines[i]);
      RowItemOk(Classify(lines[i]));
      assert items[i] == ItemOf(lines[i]);
    }
    AddAllKeepsOk(NOTHING, items);
  }

  /** Any text that reads as an index gives one in normal form. */
  lemma {:induction false} ReadIsNormal(text: string)
    ensures Read(text).Ok? ==> Normal(Read(text).value)
  {
    if Read(text).Ok? {
      LinesHaveNoBreak(text);
      ReadPartialOk(Lines(text));
      var p := AddAll(NOTHING, Map(ItemOf, Lines(text))).value;
      EntryLeIsOrder();
      forall k | k in p.entries
        ensures NormalList(k, Sort(p.entries[k], EntryLe))
      {
        assert ListOk(k, p.entries[k]);
        SortSorts(p.entries[k], EntryLe);
        SortKeepsPaths(k, p.entries[k]);
      }
    }
  }

  /**
   * Which entry of a path wins: the first of its list, which comes from a lowest mount, and among the entries of
   * that mount has a source kind first in the order of strings. An index that reads has version 1.
   */
  lemma {:induction false} LowestMountWins(text: string, key: string, i: nat)
    requires Read(text).Ok? && key in Read(text).value.entries && i < |Read(text).value.entries[key]|
    ensures Read(text).value.version == 1
    ensures var list := Read(text).value.entries[key];
      && list[i].path == key
      && list[0].mountOrder <= list[i].mountOrder
      && (list[0].mountOrder == list[i].mountOrder ==>
            LexLe(SourceLabel(list[0].source), SourceLabel(list[i].source)))
  {
    ReadIsNormal(text);
    var list := Read(text).value.entries[key];
    assert NormalList(key, list);
    if i == 0 {
      LexTotal(SourceLabel(list[0].source), SourceLabel(list[0].source));
    } else {
      assert EntryLe(list[0], list[i]);
    }
  }

  lemma {:induction false} SortKeepsPaths(key: string, list: seq<Entry>)
    requires AllUnder(key, list)
    ensures AllUnder(key, Sort(list, EntryLe))
  {
    var sorted := Sort(list, EntryLe);
    forall i | 0 <= i < |sorted|
      ensures sorted[i].path == key
    {
      assert sorted[i] in multiset(sorted);
      assert sorted[i] in list;
    }
  }

  lemma {:induction false} EntryLeIsOrder()
    ensures TotalPreorder(EntryLe)
  {
    forall a: Entry, b: Entry
      ensures EntryLe(a, b) || EntryLe(b, a)
    {
      LexTotal(SourceLabel(a.source), SourceLabel(b.source));
    }
    forall a: Entry, b: Entry, c: Entry | EntryLe(a, b) && EntryLe(b, c)
      ensures EntryLe(a, c)
    {
      if a.mountOrder == b.mountOrder == c.mountOrder {
        LexTransitive(SourceLabel(a.source), SourceLabel(b.source), SourceLabel(c.source));
      }
    }
  }

  /** The round trip holds exactly for indexes in normal form. */
  lemma {:induction false} RoundTripIffNormal(ix: Index, keys: seq<string>)
    requires IsKeyOrder(keys, ix.entries)
    ensures Read(Join(WrittenLines(ix, keys), '\n')) == Ok(ix) <==> Normal(ix)
  {
    if Normal(ix) {
      ReadUndoesWrite(ix, keys);
    }
    ReadIsNormal(Join(WrittenLines(ix, keys), '\n'));
  }

  /** Writing an index and reading the text gives it back exactly when it is in normal form. */
  method WriteThenRead(ix: Index) returns (read: Result<Index, ReadError>)
    ensures read == Ok(ix) <==> Normal(ix)
  {
    var text := WriteTo(ix);
    ghost var keys :| IsKeyOrder(keys, ix.entries) && text == Join(WrittenLines(ix, keys), '\n');
    RoundTripIffNormal(ix, keys);
    read := ReadFrom(text);
  }
}
