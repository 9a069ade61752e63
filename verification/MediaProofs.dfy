/** The incremental rescan agrees with reading every file again, whatever
    happened to the scans before it. */
module MediaProofs {
  import opened Wrappers
  import opened MediaModel

  /** What the files hold: the reader's answers by path and fingerprint, and
      the title made of a path. */
  datatype Truth = Truth(metadata: (string, Fingerprint) -> Metadata, cover: (string, Fingerprint) -> Option<string>,
                         stem: string -> string)

  /** The reader's answers depend on path and fingerprint only. */
  ghost predicate Honest(truth: Truth, file: File) {
    && file.stem == truth.stem(file.path)
    && (file.fingerprint.Some? && file.metadata.Got? ==> file.metadata.value == truth.metadata(file.path, file.fingerprint.value))
    && (file.fingerprint.Some? && file.cover.Got? ==> file.cover.value == truth.cover(file.path, file.fingerprint.value))
  }

  ghost predicate AllHonest(truth: Truth, files: seq<File>) {
    forall i :: 0 <= i < |files| ==> Honest(truth, files[i])
  }

  predicate ReadsAll(file: File) {
    file.metadata.Got? && file.cover.Got?
  }

  /** A row with a fingerprint holds what the file with it holds. */
  ghost predicate RowTrue(truth: Truth, path: string, row: Row) {
    row.fingerprint.Some? ==>
      var metadata := truth.metadata(path, row.fingerprint.value);
      && row.title == (if metadata.title.Some? then metadata.title.value else truth.stem(path))
      && row.artist == (if metadata.artist.Some? then metadata.artist.value else "")
      && row.durationMs == metadata.durationMs
      && row.cover == truth.cover(path, row.fingerprint.value)
  }

  /** The cache: every stored fingerprint speaks for its row. */
  ghost predicate CacheTrue(truth: Truth, lib: Library) {
    forall key :: key in lib.rows ==> RowTrue(truth, key.path, lib.rows[key])
  }

  ghost predicate IdsUnique(lib: Library) {
    && (forall key :: key in lib.rows ==> lib.rows[key].id <= lib.lastId)
    && (forall k, l :: k in lib.rows && l in lib.rows && lib.rows[k].id == lib.rows[l].id ==> k == l)
  }

  // ---------------------------------------------------------------- one file

  lemma UpsertKeepsCache(truth: Truth, lib: Library, key: Key, file: File)
    requires CacheTrue(truth, lib) && IdsUnique(lib) && Honest(truth, file) && key.path == file.path
    ensures CacheTrue(truth, Upsert(lib, key, file)) && IdsUnique(Upsert(lib, key, file))
  {
    UpsertEffect(lib, key, file);
    hide IdsUnique;
  }

  /** What a scan under way knows: the ids of the rows it has not come to yet,
      and those of the rows it skipped. */
  ghost predicate ScanSound(scan: Scan, source: int) {
    && IdsUnique(scan.lib)
    && (forall path :: path in scan.known ==> KnownFits(scan, source, path))
    && (forall i :: 0 <= i < |scan.skipped| ==> WasSkipped(scan, source, scan.skipped[i]))
  }

  predicate KnownFits(scan: Scan, source: int, path: string)
    requires path in scan.known
  {
    Key(source, path) in scan.lib.rows &&
    scan.known[path] == Known(scan.lib.rows[Key(source, path)].id, scan.lib.rows[Key(source, path)].fingerprint)
  }

  ghost predicate WasSkipped(scan: Scan, source: int, id: nat) {
    exists path :: SkippedAs(scan, source, path, id)
  }

  predicate SkippedAs(scan: Scan, source: int, path: string, id: nat) {
    path !in scan.known && Key(source, path) in scan.lib.rows && scan.lib.rows[Key(source, path)].id == id
  }

  lemma UpsertEffect(lib: Library, key: Key, file: File)
    requires IdsUnique(lib)
    ensures var r := Upsert(lib, key, file);
      && IdsUnique(r) && lib.lastId <= r.lastId && r.rows.Keys == lib.rows.Keys + {key}
      && (forall k :: k in lib.rows && k != key ==> r.rows[k] == lib.rows[k])
      && (key in lib.rows ==> r.rows[key].id == lib.rows[key].id)
      && r.rows[key].status == Available
  {
    UpsertOneRow(lib, key, file);
    hide Upsert;
    IdsStayUnique(lib, Upsert(lib, key, file), key);
  }

  lemma UpsertOneRow(lib: Library, key: Key, file: File)
    ensures var r := Upsert(lib, key, file);
      && r.rows.Keys == lib.rows.Keys + {key}
      && (forall k :: k in lib.rows && k != key ==> r.rows[k] == lib.rows[k])
      && r.lastId == (if key in lib.rows then lib.lastId else lib.lastId + 1)
      && r.rows[key].id == (if key in lib.rows then lib.rows[key].id else lib.lastId + 1)
      && r.rows[key].status == Available
  {
  }

  lemma IdsStayUnique(lib: Library, r: Library, key: Key)
    requires IdsUnique(lib) && r.rows.Keys == lib.rows.Keys + {key}
    requires forall k :: k in lib.rows && k != key ==> r.rows[k] == lib.rows[k]
    requires r.lastId == (if key in lib.rows then lib.lastId else lib.lastId + 1)
    requires r.rows[key].id == (if key in lib.rows then lib.rows[key].id else lib.lastId + 1)
    ensures IdsUnique(r)
  {
  }

  lemma {:induction false} ScanFileSound(scan: Scan, source: int, file: File, incremental: bool)
    requires ScanSound(scan, source)
    ensures ScanSound(ScanFile(scan, source, file, incremental), source)
  {
    hide Upsert, IdsUnique;
    var r := ScanFile(scan, source, file, incremental);
    UpsertEffect(scan.lib, Key(source, file.path), file);
    forall path | path in r.known ensures KnownFits(r, source, path) {
      assert KnownFits(scan, source, path);
    }
    assert Skips(scan.known, file) ==> KnownFits(scan, source, file.path);
    forall i | 0 <= i < |r.skipped|
      ensures WasSkipped(r, source, r.skipped[i])
    {
      if i < |scan.skipped| {
        assert WasSkipped(scan, source, scan.skipped[i]);
        var path :| SkippedAs(scan, source, path, scan.skipped[i]);
        assert SkippedAs(r, source, path, r.skipped[i]);
      } else {
        assert SkippedAs(r, source, file.path, r.skipped[i]);
      }
    }
  }

  lemma {:induction false} ScanFilesSound(lib: Library, source: int, files: seq<File>, incremental: bool)
    requires IdsUnique(lib)
    ensures ScanSound(ScanFiles(lib, source, files, incremental), source)
  {
    hide ScanFile, IdsUnique;
    if files != [] {
      ScanFilesSound(lib, source, files[..|files| - 1], incremental);
      ScanFileSound(ScanFiles(lib, source, files[..|files| - 1], incremental), source, files[|files| - 1], incremental);
    }
  }

  lemma {:induction false} ScanFilesKeepCache(truth: Truth, lib: Library, source: int, files: seq<File>)
    requires CacheTrue(truth, lib) && IdsUnique(lib) && AllHonest(truth, files)
    ensures var scan := ScanFiles(lib, source, files, true);
      CacheTrue(truth, scan.lib) && IdsUnique(scan.lib)
  {
    hide Upsert, CacheTrue, IdsUnique, Honest, Skips;
    if files != [] {
      var before, file := ScanFiles(lib, source, files[..|files| - 1], true), files[|files| - 1];
      ScanFilesKeepCache(truth, lib, source, files[..|files| - 1]);
      UpsertKeepsCache(truth, before.lib, Key(source, file.path), file);
    }
  }

  /** Marking rows by the ids left in `known` marks just the rows of the paths
      left in it, and no skipped one. */
  lemma {:induction false} KnownIdsExact(scan: Scan, source: int, key: Key)
    requires ScanSound(scan, source) && key in scan.lib.rows
    ensures scan.lib.rows[key].id in KnownIds(scan.known) <==> key.source == source && key.path in scan.known
    ensures scan.lib.rows[key].id in scan.skipped ==> key.source == source && key.path !in scan.known
  {
    var id := scan.lib.rows[key].id;
    if id in KnownIds(scan.known) {
      var path :| path in scan.known && scan.known[path].id == id;
      assert KnownFits(scan, source, path);
    }
    if key.source == source && key.path in scan.known {
      assert KnownFits(scan, source, key.path);
    }
    if id in scan.skipped {
      var i :| 0 <= i < |scan.skipped| && scan.skipped[i] == id;
      assert WasSkipped(scan, source, scan.skipped[i]);
      var path :| SkippedAs(scan, source, path, id);
    }
  }

  // ------------------------------------------------- incremental against full

  /** The two scans after the same files: the same rows, except that rows the
      incremental one skipped are not marked available yet. */
  ghost predicate Alike(inc: Scan, full: Scan) {
    && inc.known == full.known && full.skipped == []
    && inc.lib.lastId == full.lib.lastId && inc.lib.rows.Keys == full.lib.rows.Keys
    && forall key :: key in inc.lib.rows ==> AlikeRow(inc.lib.rows[key], full.lib.rows[key], inc.skipped)
  }

  predicate AlikeRow(inc: Row, full: Row, skipped: seq<nat>) {
    full == if inc.id in skipped then inc.(status := Available) else inc
  }

  lemma {:induction false} ScanFileAlike(truth: Truth, inc: Scan, full: Scan, source: int, file: File)
    requires Alike(inc, full) && ScanSound(inc, source) && CacheTrue(truth, inc.lib)
    requires Honest(truth, file) && ReadsAll(file)
    ensures Alike(ScanFile(inc, source, file, true), ScanFile(full, source, file, false))
  {
    hide ScanFile;
    if Skips(inc.known, file) {
      SkippedAlike(truth, inc, full, source, file);
    } else {
      ReadAlike(inc, full, source, file);
    }
  }

  lemma {:induction false} SkippedAlike(truth: Truth, inc: Scan, full: Scan, source: int, file: File)
    requires Alike(inc, full) && ScanSound(inc, source) && CacheTrue(truth, inc.lib)
    requires Honest(truth, file) && ReadsAll(file) && Skips(inc.known, file)
    ensures Alike(ScanFile(inc, source, file, true), ScanFile(full, source, file, false))
  {
    var key := Key(source, file.path);
    assert RowTrue(truth, key.path, inc.lib.rows[key]);
    var i, f := ScanFile(inc, source, file, true), ScanFile(full, source, file, false);
    assert i.skipped[|inc.skipped|] == i.lib.rows[key].id;
    assert AlikeRow(inc.lib.rows[key], full.lib.rows[key], inc.skipped);
    assert forall id :: id in i.skipped <==> id in inc.skipped || id == inc.lib.rows[key].id;
    forall k | k in i.lib.rows ensures AlikeRow(i.lib.rows[k], f.lib.rows[k], i.skipped) {
      assert AlikeRow(inc.lib.rows[k], full.lib.rows[k], inc.skipped);
    }
  }

  lemma ReadAlike(inc: Scan, full: Scan, source: int, file: File)
    requires Alike(inc, full) && ScanSound(inc, source) && ReadsAll(file) && !Skips(inc.known, file)
    ensures Alike(ScanFile(inc, source, file, true), ScanFile(full, source, file, false))
  {
    var key := Key(source, file.path);
    assert key in inc.lib.rows ==> AlikeRow(inc.lib.rows[key], full.lib.rows[key], inc.skipped);
  }

  lemma {:induction false} ScansAlike(truth: Truth, lib: Library, source: int, files: seq<File>)
    requires CacheTrue(truth, lib) && IdsUnique(lib) && AllHonest(truth, files)
    requires forall i :: 0 <= i < |files| ==> ReadsAll(files[i])
    ensures Alike(ScanFiles(lib, source, files, true), ScanFiles(lib, source, files, false))
  {
    hide ScanFile, CacheTrue, IdsUnique, Honest;
    if files != [] {
      var before := files[..|files| - 1];
      ScansAlike(truth, lib, source, before);
      ScanFilesSound(lib, source, before, true);
      ScanFilesKeepCache(truth, lib, source, before);
      ScanFileAlike(truth, ScanFiles(lib, source, before, true), ScanFiles(lib, source, before, false), source, files[|files| - 1]);
    }
  }

  /** A scan that skips skipped files ends with the very table that reading
      every file again ends with. */
  lemma {:induction false} RescanIsFullRescan(truth: Truth, lib: Library, source: int, files: seq<File>)
    requires CacheTrue(truth, lib) && IdsUnique(lib) && AllHonest(truth, files)
    requires forall i :: 0 <= i < |files| ==> ReadsAll(files[i])
    ensures Rescan(lib, source, files) == FullRescan(lib, source, files)
  {
    hide ScanFiles, CacheTrue, AllHonest, ScanSound, KnownIds;
    var inc, full := ScanFiles(lib, source, files, true), ScanFiles(lib, source, files, false);
    ScansAlike(truth, lib, source, files);
    ScanFilesSound(lib, source, files, true);
    forall key | key in inc.lib.rows
      ensures Finish(inc).rows[key] == Finish(full).rows[key]
    {
      var row := inc.lib.rows[key];
      assert AlikeRow(row, full.lib.rows[key], inc.skipped);
      KnownIdsExact(inc, source, key);
    }
    assert Finish(inc).rows == Finish(full).rows;
  }

  // ------------------------------------------------------------------- history

  ghost predicate PastHonest(truth: Truth, past: seq<PastScan>) {
    forall i :: 0 <= i < |past| ==> AllHonest(truth, past[i].files)
  }

  lemma FinishKeepsCache(truth: Truth, scan: Scan)
    requires CacheTrue(truth, scan.lib) && IdsUnique(scan.lib)
    ensures CacheTrue(truth, Finish(scan)) && IdsUnique(Finish(scan))
  {
    hide KnownIds, RowTrue;
    var rows, after := scan.lib.rows, Finish(scan).rows;
    assert after.Keys == rows.Keys;
    forall key | key in rows ensures after[key] == rows[key].(status := after[key].status) {
      StatusOnly(scan, key);
    }
    hide Finish;
    forall key | key in after ensures RowTrue(truth, key.path, after[key]) {
      assert RowTrue(truth, key.path, rows[key]);
      TrueWhateverStatus(truth, key.path, rows[key], after[key].status);
    }
  }

  lemma StatusOnly(scan: Scan, key: Key)
    requires key in scan.lib.rows
    ensures key in Finish(scan).rows && Finish(scan).rows[key] == scan.lib.rows[key].(status := Finish(scan).rows[key].status)
    ensures Finish(scan).lastId == scan.lib.lastId
  {
    hide KnownIds;
  }

  lemma TrueWhateverStatus(truth: Truth, path: string, row: Row, status: Status)
    requires RowTrue(truth, path, row)
    ensures RowTrue(truth, path, row.(status := status))
  {
  }

  /** Scans that were cancelled, failed, killed or had failing reads leave no
      lie in the cache. */
  lemma {:induction false} PastKeepsCache(truth: Truth, lib: Library, past: seq<PastScan>)
    requires CacheTrue(truth, lib) && IdsUnique(lib) && PastHonest(truth, past)
    ensures CacheTrue(truth, After(lib, past)) && IdsUnique(After(lib, past))
  {
    hide ScanFiles, CacheTrue, IdsUnique, Honest, Finish;
    if past != [] {
      var before, scan := After(lib, past[..|past| - 1]), past[|past| - 1];
      PastKeepsCache(truth, lib, past[..|past| - 1]);
      if scan.stopped.Some? && scan.stopped.value <= |scan.files| {
        ScanFilesKeepCache(truth, before, scan.source, scan.files[..scan.stopped.value]);
      } else {
        ScanFilesKeepCache(truth, before, scan.source, scan.files);
        FinishKeepsCache(truth, ScanFiles(before, scan.source, scan.files, true));
      }
    }
  }

  /** The main result, from the empty table on: after any past, a rescan whose
      reads all succeed leaves the rows and statuses of a full one. */
  lemma {:induction false} RescanAfterAnyPast(truth: Truth, past: seq<PastScan>, source: int, files: seq<File>)
    requires PastHonest(truth, past) && AllHonest(truth, files)
    requires forall i :: 0 <= i < |files| ==> ReadsAll(files[i])
    ensures var lib := After(Library(map[], 0), past);
      Rescan(lib, source, files) == FullRescan(lib, source, files)
  {
    hide After;
    PastKeepsCache(truth, Library(map[], 0), past);
    RescanIsFullRescan(truth, After(Library(map[], 0), past), source, files);
  }

  /** A scan that did not come to its end turns no row missing, and removes
      none. */
  lemma {:induction false} UnfinishedScanMissesNothing(lib: Library, source: int, files: seq<File>, n: nat)
    requires n <= |files|
    ensures var r := PartialRescan(lib, source, files, n);
      && lib.rows.Keys <= r.rows.Keys
      && forall key :: key in r.rows && r.rows[key].status == Missing ==> key in lib.rows && lib.rows[key].status == Missing
  {
    if n > 0 {
      UnfinishedScanMissesNothing(lib, source, files, n - 1);
      assert files[..n][..n - 1] == files[..n - 1];
    }
  }

  // ------------------------------------------------------- what a rescan stores

  ghost predicate Found(files: seq<File>, path: string) {
    exists i :: 0 <= i < |files| && files[i].path == path
  }

  lemma {:induction false} ScanKnows(lib: Library, source: int, files: seq<File>, incremental: bool, path: string)
    ensures path in ScanFiles(lib, source, files, incremental).known <==> Key(source, path) in lib.rows && !Found(files, path)
  {
    hide Upsert;
    if files != [] {
      var before := files[..|files| - 1];
      ScanKnows(lib, source, before, incremental, path);
      assert Found(files, path) <==> Found(before, path) || files[|files| - 1].path == path by {
        assert forall i :: 0 <= i < |before| ==> before[i] == files[i];
      }
    }
  }

  lemma {:induction false} ScanRows(lib: Library, source: int, files: seq<File>, key: Key)
    requires IdsUnique(lib)
    ensures var scan := ScanFiles(lib, source, files, false);
      && scan.skipped == []
      && (key in scan.lib.rows <==> key in lib.rows || (key.source == source && Found(files, key.path)))
      && (key.source == source && Found(files, key.path) ==> scan.lib.rows[key].status == Available)
      && (key in lib.rows && !(key.source == source && Found(files, key.path)) ==> scan.lib.rows[key] == lib.rows[key])
      && IdsUnique(scan.lib)
  {
    hide Upsert, IdsUnique;
    if files != [] {
      var before, file := files[..|files| - 1], files[|files| - 1];
      ScanRows(lib, source, before, key);
      UpsertEffect(ScanFiles(lib, source, before, false).lib, Key(source, file.path), file);
      assert Found(files, key.path) <==> Found(before, key.path) || file.path == key.path by {
        assert forall i :: 0 <= i < |before| ==> before[i] == files[i];
      }
    }
  }

  /** After a full rescan - and so after an incremental one - a row of the
      source is available when its file was found and missing when not; rows
      of other sources are untouched. */
  lemma {:induction false} FullRescanStatuses(lib: Library, source: int, files: seq<File>, key: Key)
    requires IdsUnique(lib)
    ensures var r := FullRescan(lib, source, files);
      && (key in r.rows <==> key in lib.rows || (key.source == source && Found(files, key.path)))
      && (key in r.rows && key.source == source ==> r.rows[key].status == if Found(files, key.path) then Available else Missing)
      && (key in lib.rows && key.source == source && !Found(files, key.path) ==> r.rows[key] == lib.rows[key].(status := Missing))
      && (key in lib.rows && key.source != source ==> r.rows[key] == lib.rows[key])
  {
    hide ScanFiles, Found;
    var scan := ScanFiles(lib, source, files, false);
    ScanRows(lib, source, files, key);
    ScanFilesSound(lib, source, files, false);
    if key in scan.lib.rows {
      ScanKnows(lib, source, files, false, key.path);
      KnownIdsExact(scan, source, key);
    }
  }

  /** A failed read wipes nothing that was stored, and is tried again by the
      next scan whatever the file's fingerprint is then. */
  lemma FailedReadIsTriedAgain(lib: Library, key: Key, file: File, next: File, known: map<string, Known>)
    requires !ReadsAll(file) && key.path == file.path == next.path
    requires known == KnownOf(Upsert(lib, key, file), key.source)
    ensures var r := Upsert(lib, key, file);
      && (key in lib.rows && file.metadata.Failed? ==>
            r.rows[key].title == lib.rows[key].title && r.rows[key].artist == lib.rows[key].artist
            && r.rows[key].durationMs == lib.rows[key].durationMs)
      && (key in lib.rows && file.cover.Failed? ==> r.rows[key].cover == lib.rows[key].cover)
      && !Skips(known, next)
  {
  }
}
