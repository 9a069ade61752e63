/** Playlists of `src/backend/src/database.rs`: their entries, the places
    saved for resuming, and the constraints of the tables. */
module PlaylistModel {
  import opened Wrappers

  /** Row ids; SQLite counts them up from 1. */
  type Id = nat

  datatype Entry = Entry(playlist: Id, media: Id, position: int)

  /** The single row of `resume_state`. */
  datatype Resume = Resume(playlist: Option<Id>, entry: Option<Id>)

  /** `places` is `playlist_resume`: the entry each playlist stopped at. */
  datatype Tables = Tables(playlists: set<Id>, media: set<Id>, entries: map<Id, Entry>,
                           resume: Option<Resume>, places: map<Id, Option<Id>>)

  // --------------------------------------------------------------- positions

  /** UNIQUE (playlist_id, position). */
  ghost predicate PositionsUnique(entries: map<Id, Entry>) {
    forall a, b :: a in entries && b in entries && a != b && entries[a].playlist == entries[b].playlist
      ==> entries[a].position != entries[b].position
  }

  predicate IsAt(entries: map<Id, Entry>, id: Id, playlist: Id, position: int) {
    id in entries && entries[id].playlist == playlist && entries[id].position == position
  }

  /** The playlist has exactly the entries `order`, at positions 0, 1, 2 ... */
  ghost predicate Lists(entries: map<Id, Entry>, playlist: Id, order: seq<Id>) {
    && (forall i :: 0 <= i < |order| ==> IsAt(entries, order[i], playlist, i))
    && (forall id :: id in entries && entries[id].playlist == playlist ==> id in order)
  }

  /** COALESCE(MAX(position), -1) + 1. */
  ghost predicate IsNextPosition(entries: map<Id, Entry>, playlist: Id, position: int) {
    && (forall id :: id in entries && entries[id].playlist == playlist ==> entries[id].position < position)
    && (position == 0 || exists id :: id in entries && entries[id].playlist == playlist && entries[id].position == position - 1)
  }

  /** Whether no other row of the playlist holds `position`. */
  predicate Free(entries: map<Id, Entry>, id: Id, playlist: Id, position: int) {
    forall other :: other in entries && other != id && entries[other].playlist == playlist ==> entries[other].position != position
  }

  /** An UPDATE of positions that visits the rows `visit` one by one and checks
      the constraint at each; the first conflict ends the statement. */
  function UpdateRows(entries: map<Id, Entry>, visit: seq<Id>, move: int -> int): Option<map<Id, Entry>> {
    if visit == [] then Some(entries)
    else if visit[0] !in entries then None
    else
      var entry := entries[visit[0]];
      var moved := entry.(position := move(entry.position));
      if !Free(entries, visit[0], entry.playlist, moved.position) then None
      else UpdateRows(entries[visit[0] := moved], visit[1..], move)
  }

  /** The same without any check: the table after all of `visit`. */
  function Unchecked(entries: map<Id, Entry>, visit: seq<Id>, move: int -> int): map<Id, Entry> {
    if visit == [] || visit[0] !in entries then entries
    else
      var entry := entries[visit[0]];
      Unchecked(entries[visit[0] := entry.(position := move(entry.position))], visit[1..], move)
  }

  /** `visit` is some order of the rows `ids`, each once. */
  ghost predicate Visits(visit: seq<Id>, ids: set<Id>) {
    && (forall id :: id in visit <==> id in ids)
    && (forall i, j :: 0 <= i < j < |visit| ==> visit[i] != visit[j])
  }

  function Negated(position: int): int { -position }

  function BackUp(position: int): int { -position - 1 }

  function OneUp(position: int): int { position - 1 }

  /** The rows of the first UPDATE, and those of the second. */
  function Behind(entries: map<Id, Entry>, playlist: Id, position: int): set<Id> {
    set id | id in entries && entries[id].playlist == playlist && entries[id].position > position
  }

  function BelowZero(entries: map<Id, Entry>, playlist: Id): set<Id> {
    set id | id in entries && entries[id].playlist == playlist && entries[id].position < 0
  }

  /** All rows of `ids` moved at once. */
  function MovedRows(entries: map<Id, Entry>, ids: set<Id>, move: int -> int): map<Id, Entry> {
    map id | id in entries :: if id in ids then entries[id].(position := move(entries[id].position)) else entries[id]
  }

  // ----------------------------------------------------------- references

  /** What foreign keys = ON guarantees. */
  ghost predicate ReferencesHold(t: Tables) {
    && (forall id :: id in t.entries ==> t.entries[id].playlist in t.playlists && t.entries[id].media in t.media)
    && (t.resume.Some? && t.resume.value.playlist.Some? ==> t.resume.value.playlist.value in t.playlists)
    && (t.resume.Some? && t.resume.value.entry.Some? ==> t.resume.value.entry.value in t.entries)
    && (forall p :: p in t.places ==> p in t.playlists)
    && (forall p :: p in t.places && t.places[p].Some? ==> t.places[p].value in t.entries)
  }

  /** The last place lies in the playlist it names. */
  predicate ResumeMatches(t: Tables) {
    t.resume.Some? && t.resume.value.entry.Some? && t.resume.value.entry.value in t.entries ==>
      t.resume.value.playlist == Some(t.entries[t.resume.value.entry.value].playlist)
  }

  /** ON DELETE SET NULL. */
  function PlacesWithout(places: map<Id, Option<Id>>, gone: set<Id>): map<Id, Option<Id>> {
    map p | p in places :: if places[p].Some? && places[p].value in gone then None else places[p]
  }

  function EntriesOf(t: Tables, playlist: Id): set<Id> {
    set id | id in t.entries && t.entries[id].playlist == playlist
  }

  /** `delete_playlist` up to the check of the foreign keys: the last place
      dropped where it names the playlist, then the row, its entries and its
      own place deleted. */
  function Deleted(t: Tables, playlist: Id): Tables {
    var gone := EntriesOf(t, playlist);
    Tables(t.playlists - {playlist}, t.media, t.entries - gone,
           if t.resume.Some? && t.resume.value.playlist == Some(playlist) then Some(Resume(None, None)) else t.resume,
           PlacesWithout(t.places - {playlist}, gone))
  }

  datatype Outcome = Done(changed: bool) | ConstraintFailed

  /** `delete_playlist`: a reference left dangling rolls everything back. */
  function DeletePlaylist(t: Tables, playlist: Id): (Tables, Outcome) {
    var after := Deleted(t, playlist);
    if after.resume.Some? && after.resume.value.entry.Some? && after.resume.value.entry.value !in after.entries
    then (t, ConstraintFailed)
    else (after, Done(playlist in t.playlists))
  }

  /** `save_resume_state`, playlist and entry only. */
  function SaveResume(t: Tables, state: Resume): (Tables, Outcome) {
    if (state.playlist.Some? && state.playlist.value !in t.playlists) || (state.entry.Some? && state.entry.value !in t.entries)
    then (t, ConstraintFailed)
    else (t.(resume := Some(state),
             places := if state.playlist.Some? then t.places[state.playlist.value := state.entry] else t.places),
          Done(true))
  }

  /** The tables once the row of an entry is gone, positions untouched. */
  function WithoutEntry(t: Tables, id: Id): Tables {
    t.(entries := t.entries - {id},
       resume := if t.resume.Some? && t.resume.value.entry == Some(id) then Some(t.resume.value.(entry := None)) else t.resume,
       places := PlacesWithout(t.places, {id}))
  }
}
