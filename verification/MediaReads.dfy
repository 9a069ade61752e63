/** Which files a rescan reads, and what a rescan does to the rows whatever
    the reader answers. */
module MediaReads {
  import opened Wrappers
  import opened MediaModel
  import opened MediaProofs

  /** The file has the fingerprint its row was stored with. */
  predicate Unchanged(lib: Library, source: int, file: File) {
    && Key(source, file.path) in lib.rows
    && lib.rows[Key(source, file.path)].fingerprint.Some?
    && lib.rows[Key(source, file.path)].fingerprint == file.fingerprint
  }

  /** Each path is found once, as walking the directories finds it. */
  ghost predicate OncePerPath(files: seq<File>) {
    forall i, j :: 0 <= i < j < |files| ==> files[i].path != files[j].path
  }

  // ------------------------------------------------------------ what is read

  /** A known file with its stored fingerprint is passed over: the rows stay
      as they are, and no answer of the reader makes a difference. */
  lemma UnchangedIsNotRead(scan: Scan, source: int, file: File, other: File)
    requires file.path in scan.known && file.fingerprint.Some? && scan.known[file.path].fingerprint == file.fingerprint
    requires other.path == file.path && other.fingerprint == file.fingerprint
    ensures var r := ScanFile(scan, source, file, true);
      && r.lib == scan.lib && r.skipped == scan.skipped + [scan.known[file.path].id]
      && r == ScanFile(scan, source, other, true)
  {
  }

  /** Of a path not come to yet, the scan knows what the table had. */
  lemma {:induction false} StillKnown(lib: Library, source: int, files: seq<File>, path: string)
    requires !Found(files, path)
    ensures var known := ScanFiles(lib, source, files, true).known;
      && (path in known <==> Key(source, path) in lib.rows)
      && (path in known ==>
            known[path] == Known(lib.rows[Key(source, path)].id, lib.rows[Key(source, path)].fingerprint))
  {
    hide Upsert;
    if files != [] {
      var before := files[..|files| - 1];
      assert files[|files| - 1].path != path;
      assert !Found(before, path) by {
        assert forall i :: 0 <= i < |before| ==> before[i] == files[i];
      }
      StillKnown(lib, source, before, path);
    }
  }

  /** The same file, but for what the reader says of it when it is unchanged. */
  predicate SameButReads(lib: Library, source: int, file: File, other: File) {
    file == other || (Unchanged(lib, source, file) && other.path == file.path && other.fingerprint == file.fingerprint)
  }

  lemma {:induction false} ScansSameRows(lib: Library, source: int, files: seq<File>, others: seq<File>)
    requires |files| == |others| && OncePerPath(files)
    requires forall i :: 0 <= i < |files| ==> SameButReads(lib, source, files[i], others[i])
    ensures ScanFiles(lib, source, files, true) == ScanFiles(lib, source, others, true)
  {
    hide ScanFile;
    if files != [] {
      var n := |files| - 1;
      ScansSameRows(lib, source, files[..n], others[..n]);
      if files[n] != others[n] {
        StillKnown(lib, source, files[..n], files[n].path);
        UnchangedIsNotRead(ScanFiles(lib, source, files[..n], true), source, files[n], others[n]);
      }
    }
  }

  /** What the reader says of unchanged files makes no difference to a rescan,
      whether it answers at all or with something else. */
  lemma {:induction false} OnlyChangedAreRead(lib: Library, source: int, files: seq<File>, others: seq<File>)
    requires |files| == |others| && OncePerPath(files)
    requires forall i :: 0 <= i < |files| ==> SameButReads(lib, source, files[i], others[i])
    ensures Rescan(lib, source, files) == Rescan(lib, source, others)
  {
    hide ScanFiles;
    ScansSameRows(lib, source, files, others);
  }

  // -------------------------------------------------------- what a rescan does

  lemma {:induction false} ScanKeepsRows(lib: Library, source: int, files: seq<File>, key: Key)
    requires IdsUnique(lib)
    ensures var scan := ScanFiles(lib, source, files, true); var found := key.source == source && Found(files, key.path);
      && (key in scan.lib.rows <==> key in lib.rows || found)
      && (found ==> scan.lib.rows[key].status == Available || scan.lib.rows[key].id in scan.skipped)
      && (key in lib.rows && !found ==> scan.lib.rows[key] == lib.rows[key])
      && IdsUnique(scan.lib)
  {
    hide Upsert, IdsUnique;
    if files != [] {
      var before, file := files[..|files| - 1], files[|files| - 1];
      ScanKeepsRows(lib, source, before, key);
      ScanFilesSound(lib, source, before, true);
      var scan := ScanFiles(lib, source, before, true);
      UpsertEffect(scan.lib, Key(source, file.path), file);
      if file.path in scan.known { assert KnownFits(scan, source, file.path); }
      if Skips(scan.known, file) {
        var more := ScanFiles(lib, source, files, true).skipped;
        assert more[|scan.skipped|] == scan.known[file.path].id;
        assert forall id :: id in scan.skipped ==> id in more;
      }
      assert Found(files, key.path) <==> Found(before, key.path) || file.path == key.path by {
        assert forall i :: 0 <= i < |before| ==> before[i] == files[i];
      }
    }
  }

  /** After every rescan, whatever could be read, the source's rows are those
      before and those found, available when found and missing when not; a row
      not found keeps all else, and other sources keep everything. */
  lemma {:induction false} RescanStatuses(lib: Library, source: int, files: seq<File>, key: Key)
    requires IdsUnique(lib)
    ensures var r := Rescan(lib, source, files); var found := key.source == source && Found(files, key.path);
      && (key in r.rows <==> key in lib.rows || found)
      && (found ==> r.rows[key].status == Available)
      && (key in lib.rows && key.source == source && !found ==> r.rows[key] == lib.rows[key].(status := Missing))
      && (key in lib.rows && key.source != source ==> r.rows[key] == lib.rows[key])
  {
    hide ScanFiles, Found, KnownIds;
    var scan := ScanFiles(lib, source, files, true);
    ScanKeepsRows(lib, source, files, key);
    ScanFilesSound(lib, source, files, true);
    if key in scan.lib.rows {
      ScanKnows(lib, source, files, true, key.path);
      KnownIdsExact(scan, source, key);
    }
  }

  lemma {:induction false} ScanLeavesUnchanged(lib: Library, source: int, files: seq<File>)
    requires OncePerPath(files) && forall i :: 0 <= i < |files| ==> Unchanged(lib, source, files[i])
    ensures ScanFiles(lib, source, files, true).lib == lib
  {
    hide ScanFile;
    if files != [] {
      var n := |files| - 1;
      ScanLeavesUnchanged(lib, source, files[..n]);
      StillKnown(lib, source, files[..n], files[n].path);
      UnchangedIsNotRead(ScanFiles(lib, source, files[..n], true), source, files[n], files[n]);
    }
  }

  /** A rescan that finds only unchanged files changes nothing but statuses,
      whatever the reader would answer. */
  lemma {:induction false} UnchangedKeepRows(lib: Library, source: int, files: seq<File>, key: Key)
    requires IdsUnique(lib) && OncePerPath(files) && forall i :: 0 <= i < |files| ==> Unchanged(lib, source, files[i])
    ensures var r := Rescan(lib, source, files);
      && r.lastId == lib.lastId && r.rows.Keys == lib.rows.Keys
      && (key in lib.rows ==>
            r.rows[key] == if key.source != source then lib.rows[key]
                           else lib.rows[key].(status := if Found(files, key.path) then Available else Missing))
  {
    hide ScanFiles, Found, IdsUnique, KnownIds, OncePerPath, Unchanged;
    ScanLeavesUnchanged(lib, source, files);
    RescanStatuses(lib, source, files, key);
    if key in lib.rows {
      StatusOnly(ScanFiles(lib, source, files, true), key);
    }
  }

  // ------------------------------------------------------------ what is stored

  /** A new file whose reads fail gets its name for a title and nothing else,
      and the next id. */
  lemma FailedNewFile(lib: Library, key: Key, file: File)
    requires key !in lib.rows && file.metadata.Failed? && file.cover.Failed?
    ensures Upsert(lib, key, file) ==
      Library(lib.rows[key := Row(lib.lastId + 1, file.stem, "", 0, Available, None, None)], lib.lastId + 1)
  {
  }

  /** Whatever else failed, what was read of a file is stored. */
  lemma WhatIsReadIsStored(lib: Library, key: Key, file: File)
    ensures var row := Upsert(lib, key, file).rows[key];
      && (file.metadata.Got? ==>
            && row.title == (if file.metadata.value.title.Some? then file.metadata.value.title.value else file.stem)
            && row.artist == (if file.metadata.value.artist.Some? then file.metadata.value.artist.value else "")
            && row.durationMs == file.metadata.value.durationMs)
      && (file.cover.Got? ==> row.cover == file.cover.value)
      && row.fingerprint == (if ReadsAll(file) then file.fingerprint else None)
      && row.status == Available
  {
  }
}
