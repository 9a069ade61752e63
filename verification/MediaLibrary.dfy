/** The rescan as the program runs it: rows updated one by one, and a loop
    that takes paths out of `known` and collects the ids it skips. */
module MediaLibraries {
  import opened Wrappers
  import opened MediaModel

  datatype ScanResult = Scanned(files: nat) | Cancelled

  class Database {
    var media: map<Key, Row>
    var lastId: nat

    constructor ()
      ensures View() == Library(map[], 0)
    {
      media, lastId := map[], 0;
    }

    function View(): Library
      reads this
    {
      Library(media, lastId)
    }

    /** Every path of `source` that has a row, and no other, with the id and
        the stored fingerprint of that row; row by row. */
    method ScannedMediaByPath(source: int) returns (known: map<string, Known>)
      ensures forall path :: path in known <==> Key(source, path) in media
      ensures forall path :: path in known ==>
        known[path].id == media[Key(source, path)].id && known[path].fingerprint == media[Key(source, path)].fingerprint
    {
      known := map[];
      var rest: set<Key> := media.Keys;
      while rest != {}
        invariant rest <= media.Keys
        invariant forall path :: path in known <==> Key(source, path) in media.Keys - rest
        invariant forall path :: path in known ==>
          known[path].id == media[Key(source, path)].id && known[path].fingerprint == media[Key(source, path)].fingerprint
        decreases |rest|
      {
        var key :| key in rest;
        rest := rest - {key};
        if key.source == source {
          known := known[key.path := Known(media[key].id, media[key].fingerprint)];
        }
      }
    }

    method UpsertScannedMedia(key: Key, file: File)
      modifies this
      ensures View() == Upsert(old(View()), key, file)
    {
      var keepMetadata, keepCover := file.metadata.Failed?, file.cover.Failed?;
      var readEverything := !keepMetadata && !keepCover;
      var metadata := if file.metadata.Got? then file.metadata.value else Metadata(None, None, 0);
      var title, artist := OrElse(metadata.title, file.stem), OrElse(metadata.artist, "");
      var duration := metadata.durationMs;
      var cover := if file.cover.Got? then file.cover.value else None;
      var id := lastId + 1;
      if key in media {
        var stored := media[key];
        id := stored.id;
        if keepMetadata {
          title, artist, duration := stored.title, stored.artist, stored.durationMs;
        }
        if keepCover {
          cover := stored.cover;
        }
      } else {
        lastId := id;
      }
      media := media[key := Row(id, title, artist, duration, Available, cover,
                                if readEverything then file.fingerprint else None)];
    }

    /** `UPDATE media SET status = ... WHERE id = ...` for every id. */
    method SetStatus(ids: set<nat>, status: Status)
      modifies this`media
      ensures media == map key | key in old(media) :: if old(media)[key].id in ids then old(media)[key].(status := status) else old(media)[key]
    {
      var rest, done := ids, {};
      ghost var before := media;
      while rest != {}
        invariant rest + done == ids
        invariant media == map key | key in before :: if before[key].id in done then before[key].(status := status) else before[key]
        decreases |rest|
      {
        var id :| id in rest;
        media := map key | key in media :: if media[key].id == id then media[key].(status := status) else media[key];
        rest, done := rest - {id}, done + {id};
      }
      assert done == ids;
    }

    /** `rescan_folder_with` on the files found; `cancel` is the flag as it is
        read before each of them. */
    method RescanFolder(source: int, files: seq<File>, cancel: seq<bool>) returns (result: ScanResult)
      requires |cancel| == |files|
      modifies this
      ensures result == Cancelled <==> exists i :: 0 <= i < |files| && cancel[i]
      ensures result.Scanned? ==> result.files == |files| && View() == Rescan(old(View()), source, files)
      ensures result.Cancelled? ==>
        exists n :: 0 <= n < |files| && cancel[n] && View() == PartialRescan(old(View()), source, files, n)
    {
      hide Upsert, ScanFile, Finish, KnownOf;
      var known := ScannedMediaByPath(source);
      KnownAtStart(View(), source, known);
      var skipped: seq<nat> := [];
      for index := 0 to |files|
        invariant Scan(View(), known, skipped) == ScanFiles(old(View()), source, files[..index], true)
        invariant forall i :: 0 <= i < index ==> !cancel[i]
      {
        if cancel[index] {
          assert View() == PartialRescan(old(View()), source, files, index);
          return Cancelled;
        }
        assert files[..index + 1][..index] == files[..index];
        known, skipped := TakeFile(source, files[index], known, skipped);
      }
      assert files[..|files|] == files;
      Close(known, skipped);
      return Scanned(|files|);
    }

    /** One round of the loop over the files: skipped, or read and stored. */
    method TakeFile(source: int, file: File, known: map<string, Known>, skipped: seq<nat>)
      returns (rest: map<string, Known>, unread: seq<nat>)
      modifies this
      ensures Scan(View(), rest, unread) == ScanFile(Scan(old(View()), known, skipped), source, file, true)
    {
      hide Upsert;
      unread := skipped;
      if file.path in known && known[file.path].fingerprint.Some? && known[file.path].fingerprint == file.fingerprint {
        unread := unread + [known[file.path].id];
      } else {
        UpsertScannedMedia(Key(source, file.path), file);
      }
      rest := known - {file.path};
    }

    /** The transaction at the end. */
    method Close(known: map<string, Known>, skipped: seq<nat>)
      modifies this`media
      ensures View() == Finish(Scan(old(View()), known, skipped))
    {
      SetStatus((set id | id in skipped), Available);
      SetStatus(KnownIds(known), Missing);
    }
  }

  /** A scan starts by knowing what the rows say. */
  lemma KnownAtStart(lib: Library, source: int, known: map<string, Known>)
    requires forall path :: path in known <==> Key(source, path) in lib.rows
    requires forall path :: path in known ==>
      known[path].id == lib.rows[Key(source, path)].id && known[path].fingerprint == lib.rows[Key(source, path)].fingerprint
    ensures known == KnownOf(lib, source)
  {
    forall path ensures path in known <==> path in KnownOf(lib, source) {
      if Key(source, path) in lib.rows {
        assert Key(source, path).path == path;
      }
    }
  }
}
