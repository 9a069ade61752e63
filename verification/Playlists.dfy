/** The playlist tables as the program changes them, statement by statement
    and row by row. */
module Playlists {
  import opened Wrappers
  import opened PlaylistModel
  import opened PlaylistProofs

  datatype Removal = Removed(playlist: Id) | Unknown

  class Database {
    var tables: Tables

    constructor ()
      ensures tables == Tables({}, {}, map[], None, map[]) && ReferencesHold(tables)
    {
      tables := Tables({}, {}, map[], None, map[]);
    }

    ghost predicate At(entries: map<Id, Entry>, playlist: Id, position: int) {
      exists id :: id in entries && entries[id].playlist == playlist && entries[id].position == position
    }

    /** SELECT COALESCE(MAX(position), -1) + 1, row by row. */
    method NextPosition(playlist: Id) returns (position: int)
      requires forall id :: id in tables.entries ==> tables.entries[id].position >= 0
      ensures IsNextPosition(tables.entries, playlist, position)
    {
      var entries := tables.entries;
      var rest: set<Id> := entries.Keys;
      position := 0;
      while rest != {}
        invariant rest <= entries.Keys
        invariant forall id :: id in entries && id !in rest && entries[id].playlist == playlist ==> entries[id].position < position
        invariant position == 0 || At(entries, playlist, position - 1)
        decreases |rest|
      {
        var id :| id in rest;
        rest := rest - {id};
        if entries[id].playlist == playlist && entries[id].position >= position {
          position := entries[id].position + 1;
        }
      }
    }

    /** `add_playlist_entry`; `id` is the id the table gives the new row. */
    method AddPlaylistEntry(playlist: Id, media: Id, id: Id, ghost order: seq<Id>) returns (ok: bool)
      requires ReferencesHold(tables) && id !in tables.entries && Lists(tables.entries, playlist, order)
      requires forall e :: e in tables.entries ==> tables.entries[e].position >= 0
      modifies this
      ensures ReferencesHold(tables) && (ok <==> playlist in old(tables).playlists && media in old(tables).media)
      ensures !ok ==> tables == old(tables)
      ensures ok ==> Lists(tables.entries, playlist, order + [id]) && id in tables.entries && tables.entries[id].media == media
      ensures ok ==> tables == old(tables).(entries := tables.entries) && tables.entries - {id} == old(tables).entries
    {
      var position := NextPosition(playlist);
      if playlist !in tables.playlists || media !in tables.media {
        return false;
      }
      AddAppends(tables.entries, playlist, order, id, media, position);
      tables := tables.(entries := tables.entries[id := Entry(playlist, media, position)]);
      assert tables.entries - {id} == old(tables).entries;
      return true;
    }

    /** One UPDATE of positions over the rows in the order `visit`. */
    method UpdatePositions(visit: seq<Id>, move: int -> int) returns (ok: bool)
      modifies this
      ensures ok <==> UpdateRows(old(tables).entries, visit, move).Some?
      ensures tables == old(tables).(entries := tables.entries)
      ensures ok ==> tables.entries == UpdateRows(old(tables).entries, visit, move).value
    {
      for i := 0 to |visit|
        invariant tables == old(tables).(entries := tables.entries)
        invariant UpdateRows(tables.entries, visit[i..], move) == UpdateRows(old(tables).entries, visit, move)
      {
        var id := visit[i];
        assert visit[i..][0] == id && visit[i..][1..] == visit[i + 1..];
        if id !in tables.entries {
          return false;
        }
        var entry := tables.entries[id];
        var moved := entry.(position := move(entry.position));
        if !Free(tables.entries, id, entry.playlist, moved.position) {
          return false;
        }
        tables := tables.(entries := tables.entries[id := moved]);
      }
      return true;
    }

    /** `remove_playlist_entry`: `first` and `second` are the orders in which
        the two UPDATEs come to their rows, whatever these are. */
    method RemovePlaylistEntry(id: Id, first: seq<Id>, second: seq<Id>, ghost order: seq<Id>, ghost k: nat) returns (result: Removal)
      requires ReferencesHold(tables)
      requires id in tables.entries ==>
        var entry := tables.entries[id];
        var behind := Behind(tables.entries - {id}, entry.playlist, k);
        && k < |order| && order[k] == id && Lists(tables.entries, entry.playlist, order)
        && Visits(first, behind)
        && Visits(second, BelowZero(MovedRows(tables.entries - {id}, behind, Negated), entry.playlist))
      modifies this
      ensures ReferencesHold(tables)
      ensures result.Unknown? <==> id !in old(tables).entries
      ensures result.Unknown? ==> tables == old(tables)
      ensures result.Removed? ==>
        && result.playlist == old(tables).entries[id].playlist
        && Lists(tables.entries, result.playlist, order[..k] + order[k + 1..])
        && (forall e :: e in tables.entries <==> e in old(tables).entries && e != id)
        && (forall e :: e in tables.entries && tables.entries[e].playlist != result.playlist ==> tables.entries[e] == old(tables).entries[e])
        && (forall e :: e in tables.entries ==> tables.entries[e].media == old(tables).entries[e].media)
        && OnlyForgets(old(tables), tables, {id})
        && tables.resume == (if old(tables).resume.Some? && old(tables).resume.value.entry == Some(id)
                             then Some(Resume(old(tables).resume.value.playlist, None)) else old(tables).resume)
      ensures ResumeMatches(old(tables)) ==> ResumeMatches(tables)
    {
      if id !in tables.entries {
        return Unknown;
      }
      var before := tables;
      var entry := tables.entries[id];
      assert IsAt(tables.entries, id, entry.playlist, k);
      WithoutEntryKeepsReferences(tables, id);
      tables := WithoutEntry(tables, id);
      ghost var deleted := tables;
      DeleteLeavesGap(before.entries, entry.playlist, order, k);
      RemovalClosesGap(deleted.entries, entry.playlist, order[..k] + order[k + 1..], k, first, second);
      // Neither statement can meet a conflict, so there is nothing to roll back.
      var negated := UpdatePositions(first, Negated);
      var closed := UpdatePositions(second, BackUp);
      assert negated && closed;
      RowsKept(deleted.entries, first, Negated);
      RowsKept(UpdateRows(deleted.entries, first, Negated).value, second, BackUp);
      MovingKeepsReferences(deleted, tables.entries);
      return Removed(entry.playlist);
    }

    /** `delete_playlist`. */
    method DeletePlaylist(playlist: Id) returns (outcome: Outcome)
      requires ReferencesHold(tables)
      modifies this
      ensures ReferencesHold(tables)
      ensures (tables, outcome) == PlaylistModel.DeletePlaylist(old(tables), playlist)
    {
      DeletePlaylistExactly(tables, playlist);
      var before := tables;
      if tables.resume.Some? && tables.resume.value.playlist == Some(playlist) {
        tables := tables.(resume := Some(Resume(None, None)));
      }
      var gone := EntriesOf(tables, playlist);
      tables := tables.(playlists := tables.playlists - {playlist}, entries := tables.entries - gone,
                        places := PlacesWithout(tables.places - {playlist}, gone));
      if tables.resume.Some? && tables.resume.value.entry.Some? && tables.resume.value.entry.value !in tables.entries {
        tables := before;
        return ConstraintFailed;
      }
      return Done(playlist in before.playlists);
    }

    /** `save_resume_state`. */
    method SaveResumeState(state: Resume) returns (outcome: Outcome)
      requires ReferencesHold(tables)
      modifies this
      ensures ReferencesHold(tables)
      ensures (tables, outcome) == SaveResume(old(tables), state)
    {
      SaveResumeKeepsReferences(tables, state);
      if (state.playlist.Some? && state.playlist.value !in tables.playlists)
         || (state.entry.Some? && state.entry.value !in tables.entries) {
        return ConstraintFailed;
      }
      tables := tables.(resume := Some(state));
      if state.playlist.Some? {
        tables := tables.(places := tables.places[state.playlist.value := state.entry]);
      }
      return Done(true);
    }
  }

  /** An UPDATE of positions changes nothing else. */
  lemma {:induction false} RowsKept(entries: map<Id, Entry>, visit: seq<Id>, move: int -> int)
    ensures var r := UpdateRows(entries, visit, move);
      r.Some? ==>
        && (forall id :: id in r.value <==> id in entries)
        && forall id :: id in entries ==> r.value[id].playlist == entries[id].playlist && r.value[id].media == entries[id].media
    decreases |visit|
  {
    if visit != [] && visit[0] in entries {
      var entry := entries[visit[0]];
      var moved := entry.(position := move(entry.position));
      if Free(entries, visit[0], entry.playlist, moved.position) {
        RowsKept(entries[visit[0] := moved], visit[1..], move);
      }
    }
  }
}
