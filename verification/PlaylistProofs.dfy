/** Positions stay 0..n-1 in order, no row by row check ever fails, and no
    reference is left dangling. */
module PlaylistProofs {
  import opened Wrappers
  import opened PlaylistModel

  lemma ListsDistinct(entries: map<Id, Entry>, playlist: Id, order: seq<Id>)
    requires Lists(entries, playlist, order)
    ensures forall i, j :: 0 <= i < j < |order| ==> order[i] != order[j]
  {
    forall i, j | 0 <= i < j < |order| ensures order[i] != order[j] {
      assert IsAt(entries, order[i], playlist, i) && IsAt(entries, order[j], playlist, j);
    }
  }

  // ------------------------------------------------------------------- adding

  /** The next position of a playlist without gaps is its length, and the new
      entry goes to its end; no other playlist changes. */
  lemma AddAppends(entries: map<Id, Entry>, playlist: Id, order: seq<Id>, id: Id, media: Id, position: int)
    requires Lists(entries, playlist, order) && id !in entries
    requires IsNextPosition(entries, playlist, position)
    ensures var after := entries[id := Entry(playlist, media, position)];
      Lists(after, playlist, order + [id]) && Free(entries, id, playlist, position)
  {
    if order != [] {
      var end := order[|order| - 1];
      assert IsAt(entries, end, playlist, |order| - 1);
    }
    if position != 0 {
      var last :| last in entries && entries[last].playlist == playlist && entries[last].position == position - 1;
      var i :| 0 <= i < |order| && order[i] == last;
      assert IsAt(entries, last, playlist, i);
    }
    var after := entries[id := Entry(playlist, media, position)];
    assert position == |order|;
    forall i | 0 <= i < |order + [id]|
      ensures IsAt(after, (order + [id])[i], playlist, i)
    {
      if i < |order| { assert IsAt(entries, order[i], playlist, i); }
    }
    forall k | k in after && after[k].playlist == playlist ensures k in order + [id] {
      if k != id { assert k in order; }
    }
  }

  lemma OtherListUntouched(entries: map<Id, Entry>, after: map<Id, Entry>, other: Id, order: seq<Id>)
    requires Lists(entries, other, order)
    requires forall id :: id in entries && entries[id].playlist == other ==> id in after && after[id] == entries[id]
    requires forall id :: id in after && after[id].playlist == other ==> id in entries && entries[id] == after[id]
    ensures Lists(after, other, order)
  {
    forall i | 0 <= i < |order|
      ensures IsAt(after, order[i], other, i)
    {
      assert IsAt(entries, order[i], other, i);
    }
  }

  // ------------------------------------------------------- an UPDATE row by row

  function Rows(visit: seq<Id>): set<Id> { set id | id in visit }

  /** The check of one row is that of the constraint. */
  lemma FreeIsUnique(entries: map<Id, Entry>, id: Id, entry: Entry)
    requires PositionsUnique(entries)
    requires id in entries ==> entry.playlist == entries[id].playlist
    ensures Free(entries, id, entry.playlist, entry.position) <==> PositionsUnique(entries[id := entry])
  {
    var after := entries[id := entry];
    if PositionsUnique(after) {
      forall other | other in entries && other != id && entries[other].playlist == entry.playlist
        ensures entries[other].position != entry.position
      {
        assert other in after && id in after;
      }
    }
  }

  /** So an UPDATE succeeds exactly if UNIQUE (playlist_id, position) holds
      after each of its rows. */
  lemma {:induction false} UpdateSucceedsExactly(entries: map<Id, Entry>, visit: seq<Id>, move: int -> int)
    requires PositionsUnique(entries) && forall i :: 0 <= i < |visit| ==> visit[i] in entries
    ensures UpdateRows(entries, visit, move).Some? <==>
              forall n :: 0 <= n <= |visit| ==> PositionsUnique(Unchecked(entries, visit[..n], move))
    ensures UpdateRows(entries, visit, move).Some? ==> UpdateRows(entries, visit, move).value == Unchecked(entries, visit, move)
    decreases |visit|
  {
    hide PositionsUnique, Free;
    assert Unchecked(entries, visit[..0], move) == entries;
    if visit != [] {
      var id := visit[0];
      var moved := entries[id].(position := move(entries[id].position));
      var next := entries[id := moved];
      FreeIsUnique(entries, id, moved);
      forall n | 0 < n <= |visit|
        ensures Unchecked(entries, visit[..n], move) == Unchecked(next, visit[1..][..n - 1], move)
      {
        assert visit[..n][0] == id && visit[..n][1..] == visit[1..][..n - 1];
      }
      assert Unchecked(next, visit[1..][..0], move) == next;
      if PositionsUnique(next) {
        assert forall i :: 0 <= i < |visit[1..]| ==> visit[1..][i] == visit[i + 1];
        UpdateSucceedsExactly(next, visit[1..], move);
        UniqueFromNext(entries, next, visit, move);
      } else {
        assert !PositionsUnique(Unchecked(entries, visit[..1], move));
      }
    }
  }

  lemma {:induction false} UniqueFromNext(entries: map<Id, Entry>, next: map<Id, Entry>, visit: seq<Id>, move: int -> int)
    requires visit != [] && PositionsUnique(Unchecked(entries, visit[..0], move))
    requires forall n :: 0 < n <= |visit| ==> Unchecked(entries, visit[..n], move) == Unchecked(next, visit[1..][..n - 1], move)
    ensures (forall n :: 0 <= n <= |visit| ==> PositionsUnique(Unchecked(entries, visit[..n], move))) <==>
            (forall n :: 0 <= n <= |visit[1..]| ==> PositionsUnique(Unchecked(next, visit[1..][..n], move)))
  {
    hide PositionsUnique, Unchecked;
    if forall n :: 0 <= n <= |visit| ==> PositionsUnique(Unchecked(entries, visit[..n], move)) {
      forall n | 0 <= n <= |visit[1..]| ensures PositionsUnique(Unchecked(next, visit[1..][..n], move)) {
        assert Unchecked(entries, visit[..n + 1], move) == Unchecked(next, visit[1..][..n + 1 - 1], move);
      }
    }
  }

  /** If no row of `ids` moves onto a position some row of the playlist had
      before, or onto another's new one, the UPDATE succeeds in every order of
      visiting and moves them all. */
  lemma {:induction false} UpdateSucceeds(before: map<Id, Entry>, playlist: Id, move: int -> int, done: set<Id>, visit: seq<Id>)
    requires forall id :: id in visit ==> id in before && id !in done && before[id].playlist == playlist
    requires forall i, j :: 0 <= i < j < |visit| ==> visit[i] != visit[j]
    requires forall a, b :: a in before && b in before && before[a].playlist == before[b].playlist == playlist && (a in visit || a in done)
               ==> move(before[a].position) != before[b].position
    requires forall a, b :: a in before && b in before && before[a].playlist == before[b].playlist == playlist && a != b
                            && (a in visit || a in done) && (b in visit || b in done)
               ==> move(before[a].position) != move(before[b].position)
    ensures UpdateRows(MovedRows(before, done, move), visit, move)
         == Some(MovedRows(before, done + Rows(visit), move))
    decreases |visit|
  {
    if visit == [] {
      assert done + Rows(visit) == done;
    } else {
      var now, id := MovedRows(before, done, move), visit[0];
      assert id in visit && id !in visit[1..];
      var next := now[id := now[id].(position := move(now[id].position))];
      assert next == MovedRows(before, done + {id}, move);
      assert Free(now, id, playlist, move(now[id].position));
      UpdateSucceeds(before, playlist, move, done + {id}, visit[1..]);
      VisitSet(visit, done);
    }
  }

  lemma VisitSet(visit: seq<Id>, done: set<Id>)
    requires visit != []
    ensures done + {visit[0]} + Rows(visit[1..]) == done + Rows(visit)
  {
    forall id | id in visit ensures id == visit[0] || id in visit[1..] {
      var i :| 0 <= i < |visit| && visit[i] == id;
      if i > 0 { assert visit[1..][i - 1] == id; }
    }
  }

  lemma VisitedAll(visit: seq<Id>, ids: set<Id>)
    requires Visits(visit, ids)
    ensures Rows(visit) == ids
  {
    assert forall id :: id in Rows(visit) <==> id in ids;
  }

  // ----------------------------------------------------------------- removing

  /** The entry at `k` deleted, positions not moved yet: a gap at `k`. */
  ghost predicate ListsWithGap(entries: map<Id, Entry>, playlist: Id, rest: seq<Id>, k: nat) {
    && k <= |rest|
    && (forall i :: 0 <= i < |rest| ==> IsAt(entries, rest[i], playlist, if i < k then i else i + 1))
    && (forall id :: id in entries && entries[id].playlist == playlist ==> id in rest)
  }

  lemma DeleteLeavesGap(entries: map<Id, Entry>, playlist: Id, order: seq<Id>, k: nat)
    requires Lists(entries, playlist, order) && k < |order|
    ensures ListsWithGap(entries - {order[k]}, playlist, order[..k] + order[k + 1..], k)
  {
    var rest, gone := order[..k] + order[k + 1..], order[k];
    ListsDistinct(entries, playlist, order);
    forall i | 0 <= i < |rest| ensures IsAt(entries - {gone}, rest[i], playlist, if i < k then i else i + 1) {
      var id := rest[i];
      assert id == order[if i < k then i else i + 1];
      assert IsAt(entries, order[if i < k then i else i + 1], playlist, if i < k then i else i + 1);
    }
    forall id | id in entries && entries[id].playlist == playlist && id != gone ensures id in rest {
      var i :| 0 <= i < |order| && order[i] == id;
      assert rest[if i < k then i else i - 1] == id;
    }
  }

  /** Both UPDATEs of a removal, whatever order each visits its rows in: no
      check on the way fails, the gap is closed and the order is kept. */
  lemma {:induction false} RemovalClosesGap(entries: map<Id, Entry>, playlist: Id, rest: seq<Id>, k: nat, first: seq<Id>, second: seq<Id>)
    requires ListsWithGap(entries, playlist, rest, k)
    requires Visits(first, Behind(entries, playlist, k))
    requires Visits(second, BelowZero(MovedRows(entries, Behind(entries, playlist, k), Negated), playlist))
    ensures var negated := UpdateRows(entries, first, Negated);
      && negated.Some?
      && var final := UpdateRows(negated.value, second, BackUp);
         && final.Some? && Lists(final.value, playlist, rest) && final.value.Keys == entries.Keys
         && forall id :: id in entries && entries[id].playlist != playlist ==> final.value[id] == entries[id]
  {
    hide UpdateRows, MovedRows, Visits, ListsWithGap, Lists;
    NegatePass(entries, playlist, rest, k, first);
    var negated := MovedRows(entries, Behind(entries, playlist, k), Negated);
    assert UpdateRows(entries, first, Negated) == Some(negated);
    BackPass(entries, playlist, rest, k, second);
    assert UpdateRows(negated, second, BackUp).Some?;
    GapClosed(entries, playlist, rest, k);
  }

  lemma {:induction false} NegatePass(entries: map<Id, Entry>, playlist: Id, rest: seq<Id>, k: nat, visit: seq<Id>)
    requires ListsWithGap(entries, playlist, rest, k) && Visits(visit, Behind(entries, playlist, k))
    ensures UpdateRows(entries, visit, Negated) == Some(MovedRows(entries, Behind(entries, playlist, k), Negated))
  {
    hide UpdateRows, ListsWithGap;
    var behind := Behind(entries, playlist, k);
    assert MovedRows(entries, {}, Negated) == entries;
    VisitedAll(visit, behind);
    NegatingIsSafe(entries, playlist, rest, k);
    UpdateSucceeds(entries, playlist, Negated, {}, visit);
    assert {} + behind == behind;
  }

  lemma {:induction false} BackPass(entries: map<Id, Entry>, playlist: Id, rest: seq<Id>, k: nat, visit: seq<Id>)
    requires ListsWithGap(entries, playlist, rest, k)
    requires Visits(visit, BelowZero(MovedRows(entries, Behind(entries, playlist, k), Negated), playlist))
    ensures var negated := MovedRows(entries, Behind(entries, playlist, k), Negated);
      UpdateRows(negated, visit, BackUp) == Some(MovedRows(negated, Behind(entries, playlist, k), BackUp))
  {
    hide UpdateRows, ListsWithGap, MovedRows, Visits, BelowZero;
    BehindIsNegative(entries, playlist, rest, k);
    BackIsSafe(entries, playlist, rest, k);
    MovesBack(MovedRows(entries, Behind(entries, playlist, k), Negated), playlist, k, Behind(entries, playlist, k), visit);
  }

  /** The rows `behind`, all below -k, move past the others at 0..k-1. */
  lemma {:induction false} MovesBack(negated: map<Id, Entry>, playlist: Id, k: nat, behind: set<Id>, visit: seq<Id>)
    requires forall id :: id in behind ==> id in negated && negated[id].playlist == playlist && negated[id].position + k < 0
    requires forall id :: id in negated && negated[id].playlist == playlist && id !in behind ==> 0 <= negated[id].position < k
    requires forall a, b :: a in negated && b in negated && a != b && negated[a].playlist == negated[b].playlist == playlist
               ==> negated[a].position != negated[b].position
    requires Visits(visit, behind)
    ensures UpdateRows(negated, visit, BackUp) == Some(MovedRows(negated, behind, BackUp))
  {
    hide UpdateRows;
    assert MovedRows(negated, {}, BackUp) == negated;
    VisitedAll(visit, behind);
    assert {} + behind == behind;
    UpdateSucceeds(negated, playlist, BackUp, {}, visit);
  }

  lemma {:induction false} GapClosed(entries: map<Id, Entry>, playlist: Id, rest: seq<Id>, k: nat)
    requires ListsWithGap(entries, playlist, rest, k)
    ensures var behind := Behind(entries, playlist, k);
      var final := MovedRows(MovedRows(entries, behind, Negated), behind, BackUp);
      && Lists(final, playlist, rest) && final.Keys == entries.Keys
      && forall id :: id in entries && entries[id].playlist != playlist ==> final[id] == entries[id]
  {
    var behind := Behind(entries, playlist, k);
    var final := MovedRows(MovedRows(entries, behind, Negated), behind, BackUp);
    forall i | 0 <= i < |rest| ensures IsAt(final, rest[i], playlist, i) {
      assert IsAt(entries, rest[i], playlist, if i < k then i else i + 1);
    }
  }

  lemma NegatingIsSafe(entries: map<Id, Entry>, playlist: Id, rest: seq<Id>, k: nat)
    requires ListsWithGap(entries, playlist, rest, k)
    ensures forall id :: id in entries && entries[id].playlist == playlist ==> entries[id].position >= 0 && entries[id].position != k
    ensures forall a, b :: a in entries && b in entries && a != b && entries[a].playlist == entries[b].playlist == playlist
              ==> entries[a].position != entries[b].position
  {
    forall id | id in entries && entries[id].playlist == playlist ensures entries[id].position >= 0 && entries[id].position != k {
      var i :| 0 <= i < |rest| && rest[i] == id;
    }
    forall a, b | a in entries && b in entries && a != b && entries[a].playlist == entries[b].playlist == playlist
      ensures entries[a].position != entries[b].position
    {
      var i :| 0 <= i < |rest| && rest[i] == a;
      var j :| 0 <= j < |rest| && rest[j] == b;
    }
  }

  lemma BehindIsNegative(entries: map<Id, Entry>, playlist: Id, rest: seq<Id>, k: nat)
    requires ListsWithGap(entries, playlist, rest, k)
    ensures var behind := Behind(entries, playlist, k); BelowZero(MovedRows(entries, behind, Negated), playlist) == behind
  {
    NegatingIsSafe(entries, playlist, rest, k);
    var behind := Behind(entries, playlist, k);
    var negated := MovedRows(entries, behind, Negated);
    forall id ensures id in BelowZero(negated, playlist) <==> id in behind {
      if id in entries && entries[id].playlist == playlist {
        assert entries[id].position >= 0;
      }
    }
  }

  lemma BackIsSafe(entries: map<Id, Entry>, playlist: Id, rest: seq<Id>, k: nat)
    requires ListsWithGap(entries, playlist, rest, k)
    ensures var behind := Behind(entries, playlist, k); var negated := MovedRows(entries, behind, Negated);
      && (forall id :: id in behind ==> id in negated && negated[id].playlist == playlist && negated[id].position + k < 0)
      && (forall id :: id in negated && negated[id].playlist == playlist && id !in behind ==> 0 <= negated[id].position < k)
      && (forall a, b :: a in negated && b in negated && a != b && negated[a].playlist == negated[b].playlist == playlist
            ==> negated[a].position != negated[b].position)
  {
    NegatingIsSafe(entries, playlist, rest, k);
    var behind := Behind(entries, playlist, k);
    var negated := MovedRows(entries, behind, Negated);
    forall id | id in negated && negated[id].playlist == playlist
      ensures negated[id].position == if id in behind then -entries[id].position else entries[id].position
      ensures entries[id].playlist == playlist
    {
    }
  }

  /** Moving up by one in a single UPDATE would fail in all orders of visiting
      but one: the order of the positions. */
  lemma {:induction false} OneStepNeedsPositionOrder(entries: map<Id, Entry>, playlist: Id, rest: seq<Id>, k: nat, visit: seq<Id>)
    requires ListsWithGap(entries, playlist, rest, k)
    requires Visits(visit, Behind(entries, playlist, k))
    ensures UpdateRows(entries, visit, OneUp).Some? <==> visit == rest[k..]
    decreases |rest| - k
  {
    if visit == [] {
      if k < |rest| {
        SomethingBehind(entries, playlist, rest, k);
      }
    } else {
      var id := visit[0];
      assert id in visit && id in Behind(entries, playlist, k);
      PlaceBehind(entries, playlist, rest, k, id);
      if id != rest[k] {
        assert rest[k..][0] == rest[k];
      } else {
        FirstOneUp(entries, playlist, rest, k);
        BehindNext(entries, playlist, rest, k);
        var next := entries[id := entries[id].(position := k)];
        RestVisits(visit, Behind(entries, playlist, k), Behind(next, playlist, k + 1));
        OneStepNeedsPositionOrder(next, playlist, rest, k + 1, visit[1..]);
        assert visit == [id] + visit[1..] && rest[k..] == [id] + rest[k + 1..];
      }
    }
  }

  /** A row behind the gap, but not the first one there, finds its new place
      still taken. */
  lemma PlaceBehind(entries: map<Id, Entry>, playlist: Id, rest: seq<Id>, k: nat, id: Id)
    requires ListsWithGap(entries, playlist, rest, k) && id in Behind(entries, playlist, k)
    ensures k < |rest|
    ensures id == rest[k] ==> entries[id].position == k + 1
    ensures id != rest[k] ==> !Free(entries, id, playlist, entries[id].position - 1)
  {
    var i :| 0 <= i < |rest| && rest[i] == id;
    assert IsAt(entries, id, playlist, if i < k then i else i + 1);
    if i > k {
      var before := rest[i - 1];
      assert IsAt(entries, before, playlist, i);
    }
    assert IsAt(entries, rest[k], playlist, k + 1);
  }

  lemma RestVisits(visit: seq<Id>, ids: set<Id>, rest: set<Id>)
    requires visit != [] && Visits(visit, ids) && rest == ids - {visit[0]}
    ensures Visits(visit[1..], rest)
  {
    forall id ensures id in visit[1..] <==> id in rest {
      if id in visit {
        var j :| 0 <= j < |visit| && visit[j] == id;
        assert j > 0 ==> visit[1..][j - 1] == id;
      }
    }
  }

  lemma SomethingBehind(entries: map<Id, Entry>, playlist: Id, rest: seq<Id>, k: nat)
    requires ListsWithGap(entries, playlist, rest, k) && k < |rest|
    ensures exists id :: id in Behind(entries, playlist, k)
  {
    var id := rest[k];
    assert IsAt(entries, id, playlist, k + 1);
    assert id in Behind(entries, playlist, k);
  }

  /** The row behind the gap moves up into it, and leaves its own. */
  lemma FirstOneUp(entries: map<Id, Entry>, playlist: Id, rest: seq<Id>, k: nat)
    requires ListsWithGap(entries, playlist, rest, k) && k < |rest|
    ensures var id := rest[k];
      && IsAt(entries, id, playlist, k + 1)
      && Free(entries, id, playlist, k)
      && ListsWithGap(entries[id := entries[id].(position := k)], playlist, rest, k + 1)
  {
    NegatingIsSafe(entries, playlist, rest, k);
    var id := rest[k];
    assert IsAt(entries, id, playlist, k + 1);
    var next := entries[id := entries[id].(position := k)];
    forall i | 0 <= i < |rest| ensures IsAt(next, rest[i], playlist, if i < k + 1 then i else i + 1) {
      assert IsAt(entries, rest[i], playlist, if i < k then i else i + 1);
    }
  }

  lemma BehindNext(entries: map<Id, Entry>, playlist: Id, rest: seq<Id>, k: nat)
    requires ListsWithGap(entries, playlist, rest, k) && k < |rest|
    ensures var id := rest[k];
      && id in entries
      && Behind(entries[id := entries[id].(position := k)], playlist, k + 1) == Behind(entries, playlist, k) - {id}
  {
    NegatingIsSafe(entries, playlist, rest, k);
    var id := rest[k];
    assert IsAt(entries, id, playlist, k + 1);
    var next := entries[id := entries[id].(position := k)];
    forall b ensures b in Behind(next, playlist, k + 1) <==> b in Behind(entries, playlist, k) && b != id {
      if b in entries && entries[b].playlist == playlist && b != id {
        assert entries[b].position != entries[id].position;
      }
    }
  }

  // --------------------------------------------------------------- references

  lemma WithoutEntryKeepsReferences(t: Tables, id: Id)
    requires ReferencesHold(t)
    ensures ReferencesHold(WithoutEntry(t, id))
    ensures ResumeMatches(t) ==> ResumeMatches(WithoutEntry(t, id))
    ensures OnlyForgets(t, WithoutEntry(t, id), {id})
    ensures WithoutEntry(t, id).resume ==
      if t.resume.Some? && t.resume.value.entry == Some(id) then Some(Resume(t.resume.value.playlist, None)) else t.resume
  {
  }

  /** The playlists, the media and the places are still there, but for the
      places at the entries `gone`, of which only the playlist is left. */
  ghost predicate OnlyForgets(t: Tables, r: Tables, gone: set<Id>) {
    && r.playlists == t.playlists && r.media == t.media && r.places.Keys == t.places.Keys
    && (forall p :: p in t.places && (t.places[p].None? || t.places[p].value !in gone) ==> r.places[p] == t.places[p])
    && (forall p :: p in t.places && t.places[p].Some? && t.places[p].value in gone ==> r.places[p] == None)
  }

  /** Moving positions concerns no reference. */
  lemma MovingKeepsReferences(t: Tables, entries: map<Id, Entry>)
    requires ReferencesHold(t) && forall id :: id in entries <==> id in t.entries
    requires forall id :: id in entries ==> entries[id].playlist == t.entries[id].playlist && entries[id].media == t.entries[id].media
    ensures ReferencesHold(t.(entries := entries))
    ensures ResumeMatches(t) ==> ResumeMatches(t.(entries := entries))
  {
    if t.resume.Some? && t.resume.value.entry.Some? {
      var last := t.resume.value.entry.value;
      assert last in t.entries && last in entries;
    }
    forall p | p in t.places && t.places[p].Some? ensures t.places[p].value in entries {
      var stopped := t.places[p].value;
      assert stopped in t.entries && stopped in entries;
    }
  }

  /** Deleting a playlist fails exactly when the last place is an entry of it
      under another playlist's name; else no reference is left dangling. */
  lemma DeletePlaylistExactly(t: Tables, playlist: Id)
    requires ReferencesHold(t)
    ensures var (r, outcome) := DeletePlaylist(t, playlist);
      && ReferencesHold(r)
      && (outcome.ConstraintFailed? <==>
            t.resume.Some? && t.resume.value.entry.Some? && t.entries[t.resume.value.entry.value].playlist == playlist
            && t.resume.value.playlist != Some(playlist))
      && (outcome.Done? ==> playlist !in r.playlists && (forall id :: id in r.entries <==> id in t.entries && t.entries[id].playlist != playlist))
      && (outcome.Done? ==> OnlyDeletes(t, r, playlist) && (outcome.changed <==> playlist in t.playlists))
      && (outcome.ConstraintFailed? ==> r == t)
      && (ResumeMatches(t) ==> outcome.Done? && ResumeMatches(r))
  {
  }

  /** No other playlist loses anything but places at entries deleted. */
  ghost predicate OnlyDeletes(t: Tables, r: Tables, playlist: Id) {
    && r.playlists == t.playlists - {playlist} && r.media == t.media && r.places.Keys == t.places.Keys - {playlist}
    && (forall id :: id in r.entries && id in t.entries ==> r.entries[id] == t.entries[id])
    && (forall p :: p in r.places && p in t.places ==>
          r.places[p] == if t.places[p].Some? && t.places[p].value !in r.entries then None else t.places[p])
    && r.resume == if t.resume.Some? && t.resume.value.playlist == Some(playlist) then Some(Resume(None, None)) else t.resume
  }

  /** Such a place can only be stored as it is: saving one that matches its
      playlist keeps every deletion possible. */
  lemma SaveResumeKeepsReferences(t: Tables, state: Resume)
    requires ReferencesHold(t)
    ensures var (r, outcome) := SaveResume(t, state);
      && ReferencesHold(r)
      && (outcome.ConstraintFailed? <==>
            (state.playlist.Some? && state.playlist.value !in t.playlists) || (state.entry.Some? && state.entry.value !in t.entries))
      && (outcome.ConstraintFailed? ==> r == t)
      && (outcome.Done? ==> outcome.changed && r.resume == Some(state) && (state.playlist.Some? ==> state.playlist.value in r.places && r.places[state.playlist.value] == state.entry))
      && (forall p :: p in t.places && state.playlist != Some(p) ==> p in r.places && r.places[p] == t.places[p])
      && (forall p :: p in r.places ==> p in t.places || state.playlist == Some(p))
      && r.playlists == t.playlists && r.media == t.media && r.entries == t.entries
      && (outcome.Done? ==> (ResumeMatches(r) <==>
            state.entry.Some? ==> state.playlist == Some(t.entries[state.entry.value].playlist)))
  {
  }
}
