/** The media table of `src/backend/src/database.rs` and its incremental
    rescan on values. One scan is a list of the files found, each with its
    fingerprint and the answers the reader gave for it. */
module MediaModel {
  import opened Wrappers

  datatype Status = Available | Missing | Offline

  datatype Fingerprint = Fingerprint(size: int, mtimeMs: int)

  datatype Metadata = Metadata(title: Option<string>, artist: Option<string>, durationMs: int)

  datatype Answer<T> = Got(value: T) | Failed

  /** UNIQUE(source_id, path). */
  datatype Key = Key(source: int, path: string)

  /** `fingerprint`: `file_size` and `file_mtime_ms`, stored together or not
      at all. */
  datatype Row = Row(id: nat, title: string, artist: string, durationMs: int, status: Status,
                     cover: Option<string>, fingerprint: Option<Fingerprint>)

  /** Rows are never deleted, so the next id is one above the last given. */
  datatype Library = Library(rows: map<Key, Row>, lastId: nat)

  datatype File = File(path: string, stem: string, fingerprint: Option<Fingerprint>,
                       metadata: Answer<Metadata>, cover: Answer<Option<string>>)

  /** What `known` holds for a path: id and stored fingerprint. */
  datatype Known = Known(id: nat, fingerprint: Option<Fingerprint>)

  /** A scan under way. */
  datatype Scan = Scan(lib: Library, known: map<string, Known>, skipped: seq<nat>)

  function OrElse<T>(o: Option<T>, default: T): T {
    match o
    case None => default
    case Some(v) => v
  }

  // ------------------------------------------------------------------ upsert

  /** The row that the answers for `file` make, for a new path. */
  function FreshRow(id: nat, file: File): Row {
    var metadata := if file.metadata.Got? then file.metadata.value else Metadata(None, None, 0);
    Row(id, OrElse(metadata.title, file.stem), OrElse(metadata.artist, ""), metadata.durationMs, Available,
        if file.cover.Got? then file.cover.value else None,
        if file.metadata.Got? && file.cover.Got? then file.fingerprint else None)
  }

  /** `upsert_scanned_media`: an answer that failed keeps what the row has. */
  function Upsert(lib: Library, key: Key, file: File): Library {
    if key !in lib.rows then Library(lib.rows[key := FreshRow(lib.lastId + 1, file)], lib.lastId + 1)
    else
      var stored := lib.rows[key];
      var made := FreshRow(stored.id, file);
      lib.(rows := lib.rows[key := Row(
        stored.id,
        if file.metadata.Failed? then stored.title else made.title,
        if file.metadata.Failed? then stored.artist else made.artist,
        if file.metadata.Failed? then stored.durationMs else made.durationMs,
        Available,
        if file.cover.Failed? then stored.cover else made.cover,
        made.fingerprint)])
  }

  // -------------------------------------------------------------------- scan

  /** `scanned_media_by_path`. */
  function KnownOf(lib: Library, source: int): map<string, Known> {
    map key | key in lib.rows && key.source == source :: key.path := Known(lib.rows[key].id, lib.rows[key].fingerprint)
  }

  predicate Skips(known: map<string, Known>, file: File) {
    file.path in known && known[file.path].fingerprint.Some? && known[file.path].fingerprint == file.fingerprint
  }

  /** One round of the loop in `rescan_folder_with`; `incremental` false reads
      every file again. */
  function ScanFile(scan: Scan, source: int, file: File, incremental: bool): Scan {
    var rest := scan.known - {file.path};
    if incremental && Skips(scan.known, file) then
      Scan(scan.lib, rest, scan.skipped + [scan.known[file.path].id])
    else Scan(Upsert(scan.lib, Key(source, file.path), file), rest, scan.skipped)
  }

  function ScanFiles(lib: Library, source: int, files: seq<File>, incremental: bool): Scan {
    if files == [] then Scan(lib, KnownOf(lib, source), []) else
      ScanFile(ScanFiles(lib, source, files[..|files| - 1], incremental), source, files[|files| - 1], incremental)
  }

  function KnownIds(known: map<string, Known>): set<nat> {
    set path | path in known :: known[path].id
  }

  /** The transaction at the end: skipped files are available again, files
      that were not found are missing. */
  function Finish(scan: Scan): Library {
    var missing := KnownIds(scan.known);
    scan.lib.(rows := map key | key in scan.lib.rows ::
      var row := scan.lib.rows[key];
      if row.id in missing then row.(status := Missing)
      else if row.id in scan.skipped then row.(status := Available)
      else row)
  }

  /** A scan that ran to its end. */
  function Rescan(lib: Library, source: int, files: seq<File>): Library {
    Finish(ScanFiles(lib, source, files, true))
  }

  /** Reading every file again. */
  function FullRescan(lib: Library, source: int, files: seq<File>): Library {
    Finish(ScanFiles(lib, source, files, false))
  }

  /** A scan that was cancelled, failed or was killed before file `n`; each
      row was stored by itself, the transaction at the end never came. */
  function PartialRescan(lib: Library, source: int, files: seq<File>, n: nat): Library
    requires n <= |files|
  {
    ScanFiles(lib, source, files[..n], true).lib
  }

  /** One scan of the past: where it stopped, if it did. */
  datatype PastScan = PastScan(source: int, files: seq<File>, stopped: Option<nat>)

  function After(lib: Library, past: seq<PastScan>): Library {
    if past == [] then lib else
      var before := After(lib, past[..|past| - 1]);
      var scan := past[|past| - 1];
      if scan.stopped.Some? && scan.stopped.value <= |scan.files|
      then PartialRescan(before, scan.source, scan.files, scan.stopped.value)
      else Rescan(before, scan.source, scan.files)
  }
}
