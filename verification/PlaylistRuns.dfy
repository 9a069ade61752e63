/** Whole runs over the playlist tables: however entries come and go, every
    playlist stays at 0..n-1, no constraint fails on the way and no reference
    is left dangling. */
module PlaylistRuns {
  import opened Wrappers
  import opened PlaylistModel
  import opened PlaylistProofs
  import Playlists

  ghost predicate Listed(entries: map<Id, Entry>, playlist: Id) {
    exists order :: Lists(entries, playlist, order)
  }

  ghost predicate Orderly(t: Tables) {
    ReferencesHold(t) && forall playlist: Id :: Listed(t.entries, playlist)
  }

  /** `visit` orders are those in which SQLite happens to come to the rows. */
  datatype Op =
    | CreatePlaylist(playlist: Id)
    | AddMedia(media: Id)
    | AddEntry(playlist: Id, media: Id, id: Id, position: int)
    | RemoveEntry(id: Id, first: seq<Id>, second: seq<Id>)
    | Delete(playlist: Id)
    | Save(state: Resume)

  /** Both UPDATEs of a removal after its DELETE; none if a check fails. */
  function RowsMovedUp(entries: map<Id, Entry>, first: seq<Id>, second: seq<Id>): Option<map<Id, Entry>> {
    var negated := UpdateRows(entries, first, Negated);
    if negated.None? then None else UpdateRows(negated.value, second, BackUp)
  }

  /** The rows a removal's UPDATEs come to. */
  ghost predicate RightRows(t: Tables, id: Id, first: seq<Id>, second: seq<Id>)
    requires id in t.entries
  {
    var entry := t.entries[id];
    var behind := Behind(t.entries - {id}, entry.playlist, entry.position);
    && Visits(first, behind)
    && Visits(second, BelowZero(MovedRows(t.entries - {id}, behind, Negated), entry.playlist))
  }

  /** What can happen next. */
  ghost predicate Possible(t: Tables, op: Op) {
    match op
    case AddEntry(playlist, media, id, position) => id !in t.entries && IsNextPosition(t.entries, playlist, position)
    case RemoveEntry(id, first, second) => id in t.entries ==> RightRows(t, id, first, second)
    case _ => true
  }

  /** The tables afterwards; a failing statement rolls back. */
  function Step(t: Tables, op: Op): Tables {
    match op
    case CreatePlaylist(playlist) => t.(playlists := t.playlists + {playlist})
    case AddMedia(media) => t.(media := t.media + {media})
    case AddEntry(playlist, media, id, position) =>
      if playlist in t.playlists && media in t.media && Free(t.entries, id, playlist, position)
      then t.(entries := t.entries[id := Entry(playlist, media, position)]) else t
    case RemoveEntry(id, first, second) =>
      if id !in t.entries then t
      else
        var left := WithoutEntry(t, id);
        var moved := RowsMovedUp(left.entries, first, second);
        if moved.None? then t else left.(entries := moved.value)
    case Delete(playlist) => DeletePlaylist(t, playlist).0
    case Save(state) => SaveResume(t, state).0
  }

  // ------------------------------------------------------------- single steps

  /** In orderly tables an entry can always be added: the next position is
      free, and all playlists stay listed. */
  lemma AddKeepsOrderly(t: Tables, playlist: Id, media: Id, id: Id, position: int)
    requires Orderly(t) && id !in t.entries && IsNextPosition(t.entries, playlist, position)
    requires playlist in t.playlists && media in t.media
    ensures Free(t.entries, id, playlist, position)
    ensures Orderly(t.(entries := t.entries[id := Entry(playlist, media, position)]))
  {
    hide Lists, Free, IsNextPosition;
    var after := t.entries[id := Entry(playlist, media, position)];
    assert Listed(t.entries, playlist);
    var order :| Lists(t.entries, playlist, order);
    AddAppends(t.entries, playlist, order, id, media, position);
    forall p: Id ensures Listed(after, p) {
      if p == playlist {
        assert Lists(after, p, order + [id]);
      } else {
        assert Listed(t.entries, p);
        var other :| Lists(t.entries, p, other);
        OtherListUntouched(t.entries, after, p, other);
      }
    }
    AddKeepsReferences(t, playlist, media, id, position);
  }

  lemma AddKeepsReferences(t: Tables, playlist: Id, media: Id, id: Id, position: int)
    requires ReferencesHold(t) && id !in t.entries && playlist in t.playlists && media in t.media
    ensures ReferencesHold(t.(entries := t.entries[id := Entry(playlist, media, position)]))
  {
  }

  /** The order of a playlist, and where in it an entry is. */
  lemma EntryIsListed(entries: map<Id, Entry>, id: Id) returns (order: seq<Id>, k: nat)
    requires id in entries && Listed(entries, entries[id].playlist)
    ensures Lists(entries, entries[id].playlist, order) && k < |order| && order[k] == id && entries[id].position == k
  {
    order :| Lists(entries, entries[id].playlist, order);
    k :| 0 <= k < |order| && order[k] == id;
    assert IsAt(entries, order[k], entries[id].playlist, k);
  }

  /** In orderly tables no check of a removal fails, whatever order the rows
      come in, and all playlists stay listed. */
  lemma {:induction false} RemoveKeepsOrderly(t: Tables, id: Id, first: seq<Id>, second: seq<Id>)
    requires Orderly(t) && id in t.entries && RightRows(t, id, first, second)
    ensures var left := WithoutEntry(t, id); var moved := RowsMovedUp(left.entries, first, second);
      moved.Some? && Orderly(left.(entries := moved.value)) && moved.value.Keys == t.entries.Keys - {id}
  {
    hide Lists, UpdateRows, ReferencesHold, Visits, MovedRows, Behind, BelowZero;
    var playlist := t.entries[id].playlist;
    var left := WithoutEntry(t, id);
    var order, k := EntryIsListed(t.entries, id);
    var rest := order[..k] + order[k + 1..];
    WithoutEntryKeepsReferences(t, id);
    DeleteLeavesGap(t.entries, playlist, order, k);
    RemovalClosesGap(left.entries, playlist, rest, k, first, second);
    var negated := UpdateRows(left.entries, first, Negated).value;
    var moved := UpdateRows(negated, second, BackUp).value;
    Playlists.RowsKept(left.entries, first, Negated);
    Playlists.RowsKept(negated, second, BackUp);
    MovingKeepsReferences(left, moved);
    forall p: Id ensures Listed(moved, p) {
      if p == playlist {
        assert Lists(moved, p, rest);
      } else {
        OtherStaysListed(t.entries, id, moved, p);
      }
    }
    assert moved.Keys == t.entries.Keys - {id};
  }

  /** Listed playlists have no position twice. */
  lemma OrderlyIsUnique(entries: map<Id, Entry>)
    requires forall playlist: Id :: Listed(entries, playlist)
    ensures PositionsUnique(entries)
  {
    forall a, b | a in entries && b in entries && a != b && entries[a].playlist == entries[b].playlist
      ensures entries[a].position != entries[b].position
    {
      var playlist := entries[a].playlist;
      assert Listed(entries, playlist);
      var order :| Lists(entries, playlist, order);
      var i :| 0 <= i < |order| && order[i] == a;
      var k :| 0 <= k < |order| && order[k] == b;
      assert IsAt(entries, order[i], playlist, i) && IsAt(entries, order[k], playlist, k);
    }
  }

  /** At no row of a removal's two UPDATEs is a position there twice. */
  lemma {:induction false} RemovalKeepsUnique(t: Tables, id: Id, first: seq<Id>, second: seq<Id>)
    requires Orderly(t) && id in t.entries && RightRows(t, id, first, second)
    ensures var left := WithoutEntry(t, id).entries; var negated := Unchecked(left, first, Negated);
      && PositionsUnique(left)
      && (forall n :: 0 <= n <= |first| ==> PositionsUnique(Unchecked(left, first[..n], Negated)))
      && (forall n :: 0 <= n <= |second| ==> PositionsUnique(Unchecked(negated, second[..n], BackUp)))
  {
    hide Lists, Listed, UpdateRows, Unchecked, ReferencesHold, MovedRows, PositionsUnique, RightRows;
    var left := WithoutEntry(t, id).entries;
    assert PositionsUnique(left) by { OrderlyIsUnique(t.entries); LessIsUnique(t.entries, id); }
    RemoveKeepsOrderly(t, id, first, second);
    var negated := UpdateRows(left, first, Negated).value;
    FirstInTable(t, id, first, second);
    UpdateSucceedsExactly(left, first, Negated);
    assert first[..|first|] == first;
    Playlists.RowsKept(left, first, Negated);
    SecondInTable(t, id, first, second, negated);
    UpdateSucceedsExactly(negated, second, BackUp);
  }

  lemma LessIsUnique(entries: map<Id, Entry>, id: Id)
    requires PositionsUnique(entries)
    ensures PositionsUnique(entries - {id})
  {
  }

  lemma FirstInTable(t: Tables, id: Id, first: seq<Id>, second: seq<Id>)
    requires id in t.entries && RightRows(t, id, first, second)
    ensures forall i :: 0 <= i < |first| ==> first[i] in WithoutEntry(t, id).entries
  {
    assert forall i :: 0 <= i < |first| ==> first[i] in first;
  }

  lemma SecondInTable(t: Tables, id: Id, first: seq<Id>, second: seq<Id>, negated: map<Id, Entry>)
    requires id in t.entries && RightRows(t, id, first, second)
    requires forall e :: e in negated <==> e in WithoutEntry(t, id).entries
    ensures forall i :: 0 <= i < |second| ==> second[i] in negated
  {
    assert forall i :: 0 <= i < |second| ==> second[i] in second;
  }

  lemma OtherStaysListed(entries: map<Id, Entry>, id: Id, after: map<Id, Entry>, other: Id)
    requires id in entries && entries[id].playlist != other && Listed(entries, other)
    requires forall e :: e in after <==> e in entries && e != id
    requires forall e :: e in after ==> after[e].playlist == entries[e].playlist
    requires forall e :: e in after && entries[e].playlist != entries[id].playlist ==> after[e] == entries[e]
    ensures Listed(after, other)
  {
    hide Lists;
    var order :| Lists(entries, other, order);
    OtherListUntouched(entries, after, other, order);
  }

  lemma DeleteKeepsOrderly(t: Tables, playlist: Id)
    requires Orderly(t)
    ensures Orderly(DeletePlaylist(t, playlist).0)
  {
    hide ReferencesHold, Lists;
    DeletePlaylistExactly(t, playlist);
    var after := DeletePlaylist(t, playlist).0;
    forall p: Id ensures Listed(after.entries, p) {
      assert Listed(t.entries, p);
      if p == playlist {
        if DeletePlaylist(t, playlist).1.Done? {
          NothingListed(after.entries, p);
        }
      } else {
        var order :| Lists(t.entries, p, order);
        OtherListUntouched(t.entries, after.entries, p, order);
      }
    }
  }

  lemma NothingListed(entries: map<Id, Entry>, playlist: Id)
    requires forall id :: id in entries ==> entries[id].playlist != playlist
    ensures Listed(entries, playlist)
  {
    assert Lists(entries, playlist, []);
  }

  // --------------------------------------------------------------------- runs

  lemma {:induction false} StepKeepsOrderly(t: Tables, op: Op)
    requires Orderly(t) && Possible(t, op)
    ensures Orderly(Step(t, op))
  {
    if op.AddEntry? {
      hide Listed, ReferencesHold;
      if op.playlist in t.playlists && op.media in t.media {
        AddKeepsOrderly(t, op.playlist, op.media, op.id, op.position);
      }
    } else if op.RemoveEntry? {
      hide Listed, ReferencesHold;
      if op.id in t.entries {
        RemoveKeepsOrderly(t, op.id, op.first, op.second);
      }
    } else if op.Delete? {
      DeleteKeepsOrderly(t, op.playlist);
    } else if op.Save? {
      SaveResumeKeepsReferences(t, op.state);
    }
  }

  ghost predicate AllPossible(ops: seq<Op>) {
    ops == [] || (AllPossible(ops[..|ops| - 1]) && Possible(Run(ops[..|ops| - 1]), ops[|ops| - 1]))
  }

  function Run(ops: seq<Op>): Tables {
    if ops == [] then Tables({}, {}, map[], None, map[]) else Step(Run(ops[..|ops| - 1]), ops[|ops| - 1])
  }

  lemma NoPlaylists()
    ensures Orderly(Tables({}, {}, map[], None, map[]))
  {
    forall p: Id ensures Listed(map[], p) {
      NothingListed(map[], p);
    }
  }

  /** From empty tables on, every playlist is at 0..n-1 at any time, and all
      references hold. */
  lemma {:induction false} AlwaysOrderly(ops: seq<Op>)
    requires AllPossible(ops)
    ensures Orderly(Run(ops))
  {
    hide Orderly, Possible, Step;
    if ops == [] {
      NoPlaylists();
    } else {
      AlwaysOrderly(ops[..|ops| - 1]);
      StepKeepsOrderly(Run(ops[..|ops| - 1]), ops[|ops| - 1]);
    }
  }

  // ---------------------------------------------------- a deletion that fails

  lemma {:induction false} OneMore(ops: seq<Op>, op: Op)
    ensures Run(ops + [op]) == Step(Run(ops), op)
    ensures AllPossible(ops) && Possible(Run(ops), op) ==> AllPossible(ops + [op])
  {
    assert (ops + [op])[..|ops|] == ops;
  }

  /** Two playlists, an entry of the second, and its place saved under the name
      of the first. */
  function Misplaced(): seq<Op> {
    [] + [CreatePlaylist(1)] + [CreatePlaylist(2)] + [AddMedia(1)] + [AddEntry(2, 1, 1, 0)] + [Save(Resume(Some(1), Some(1)))]
  }

  lemma {:induction false} MisplacedTables()
    ensures AllPossible(Misplaced())
    ensures Run(Misplaced()) == Tables({1, 2}, {1}, map[1 := Entry(2, 1, 0)], Some(Resume(Some(1), Some(1))), map[1 := Some(1)])
  {
    OneMore([], CreatePlaylist(1));
    OneMore([] + [CreatePlaylist(1)], CreatePlaylist(2));
    OneMore([] + [CreatePlaylist(1)] + [CreatePlaylist(2)], AddMedia(1));
    OneMore([] + [CreatePlaylist(1)] + [CreatePlaylist(2)] + [AddMedia(1)], AddEntry(2, 1, 1, 0));
    OneMore([] + [CreatePlaylist(1)] + [CreatePlaylist(2)] + [AddMedia(1)] + [AddEntry(2, 1, 1, 0)], Save(Resume(Some(1), Some(1))));
    hide AllPossible;
  }

  /** The second playlist can then not be deleted. */
  lemma {:induction false} DeletionCanFail()
    ensures AllPossible(Misplaced()) && DeletePlaylist(Run(Misplaced()), 2).1 == ConstraintFailed
  {
    hide Misplaced, AllPossible, Run;
    MisplacedTables();
    AlwaysOrderly(Misplaced());
    DeletePlaylistExactly(Run(Misplaced()), 2);
  }
}
