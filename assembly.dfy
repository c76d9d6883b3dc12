/** What load_db builds from the parsed records (db/parser.py:309-319):
 *  the records grouped by beatmapset id into Songs, in the order each set
 *  id is first seen, and the beatmap-id index in which a later record
 *  replaces an earlier one with the same id.  Each function is defined on
 *  a record list by its last element, the way the loops of load_db extend
 *  their state one record at a time. */
module Assembly {
  import opened Fmt
  import opened Model

  /** The distinct beatmapset ids of `recs`, each where it first occurs
   *  (the key order of the source's insertion-ordered `mapsets` dict). */
  function SetIds(recs: seq<Difficulty>): seq<u32>
  {
    if recs == [] then []
    else
      var ids := SetIds(recs[..|recs| - 1]);
      var id := recs[|recs| - 1].beatmapsetId;
      if id in ids then ids else ids + [id]
  }

  /** The records of `recs` whose beatmapset id is `id`, in file order. */
  function Members(recs: seq<Difficulty>, id: u32): seq<Difficulty>
  {
    if recs == [] then []
    else
      var front := Members(recs[..|recs| - 1], id);
      if recs[|recs| - 1].beatmapsetId == id then front + [recs[|recs| - 1]] else front
  }

  /** One Song per id of `ids`, holding the records with that set id. */
  function SongsOf(recs: seq<Difficulty>, ids: seq<u32>): (songs: seq<Song>)
    ensures |songs| == |ids|
  {
    if ids == [] then []
    else SongsOf(recs, ids[..|ids| - 1]) + [Song(Members(recs, ids[|ids| - 1]))]
  }

  /** The songs load_db adds: one per set id, in first-seen order. */
  function Group(recs: seq<Difficulty>): seq<Song>
  {
    SongsOf(recs, SetIds(recs))
  }

  /** All difficulties of `songs`, song after song. */
  function Flatten(songs: seq<Song>): seq<Difficulty>
  {
    if songs == [] then []
    else Flatten(songs[..|songs| - 1]) + songs[|songs| - 1].difficulties
  }

  /** bid_mapping after writing every record under its beatmap id in turn. */
  function Index(recs: seq<Difficulty>): map<u32, Difficulty>
  {
    if recs == [] then map[]
    else Index(recs[..|recs| - 1])[recs[|recs| - 1].beatmapId := recs[|recs| - 1]]
  }

  // ---------------------------------------------------------------------
  // Set ids

  /** No set id is listed twice. */
  lemma {:induction false} SetIdsDistinct(recs: seq<Difficulty>)
    ensures forall i, j | 0 <= i < j < |SetIds(recs)| :: SetIds(recs)[i] != SetIds(recs)[j]
    decreases |recs|
  {
    if recs != [] {
      SetIdsDistinct(recs[..|recs| - 1]);
    }
  }

  /** A set id is listed exactly when some record has it. */
  lemma {:induction false} SetIdsCover(recs: seq<Difficulty>)
    ensures forall id: u32 :: id in SetIds(recs) <==> exists k | 0 <= k < |recs| :: recs[k].beatmapsetId == id
    decreases |recs|
  {
    if recs != [] {
      var front := recs[..|recs| - 1];
      SetIdsCover(front);
      assert forall k | 0 <= k < |front| :: front[k] == recs[k];
    }
  }

  /** First-seen order: of two listed set ids, the earlier one occurs in
   *  the records (at `k`) before the later one occurs at all. */
  lemma {:induction false} SetIdsFirstSeen(recs: seq<Difficulty>, i: nat, j: nat) returns (k: nat)
    requires i < j < |SetIds(recs)|
    ensures k < |recs| && recs[k].beatmapsetId == SetIds(recs)[i]
    ensures forall k' | 0 <= k' <= k :: recs[k'].beatmapsetId != SetIds(recs)[j]
    decreases |recs|
  {
    var front := recs[..|recs| - 1];
    assert forall k' | 0 <= k' < |front| :: front[k'] == recs[k'];
    if j < |SetIds(front)| {
      k := SetIdsFirstSeen(front, i, j);
    } else {
      SetIdsCover(front);
      var id := SetIds(recs)[i];
      assert id in SetIds(front);
      k :| 0 <= k < |front| && front[k].beatmapsetId == id;
    }
  }

  /** The ids listed for a prefix of the records are a prefix of the ids
   *  listed for all of them: a set id keeps the place it first got. */
  lemma {:induction false} SetIdsPrefix(recs: seq<Difficulty>, n: nat)
    requires n <= |recs|
    ensures SetIds(recs[..n]) <= SetIds(recs)
    decreases |recs|
  {
    if n < |recs| {
      var front := recs[..|recs| - 1];
      assert front[..n] == recs[..n];
      SetIdsPrefix(front, n);
    } else {
      assert recs[..n] == recs;
    }
  }

  // ---------------------------------------------------------------------
  // Songs

  /** Members keeps exactly the records with the set id: each of them as
   *  often as it occurs, and nothing else. */
  lemma {:induction false} MembersExact(recs: seq<Difficulty>, id: u32)
    ensures forall i | 0 <= i < |Members(recs, id)| :: Members(recs, id)[i].beatmapsetId == id
    ensures forall d: Difficulty ::
      multiset(Members(recs, id))[d] == if d.beatmapsetId == id then multiset(recs)[d] else 0
    decreases |recs|
  {
    if recs != [] {
      var front := recs[..|recs| - 1];
      MembersExact(front, id);
      assert recs == front + [recs[|recs| - 1]];
    }
  }

  /** A set id that occurs has at least one member. */
  lemma {:induction false} MembersNonEmpty(recs: seq<Difficulty>, id: u32)
    requires id in SetIds(recs)
    ensures Members(recs, id) != []
    decreases |recs|
  {
    var front := recs[..|recs| - 1];
    if recs[|recs| - 1].beatmapsetId != id {
      MembersNonEmpty(front, id);
    }
  }

  /** A set id that does not occur has no members. */
  lemma {:induction false} MembersAbsent(recs: seq<Difficulty>, id: u32)
    requires id !in SetIds(recs)
    ensures Members(recs, id) == []
    decreases |recs|
  {
    if recs != [] {
      MembersAbsent(recs[..|recs| - 1], id);
    }
  }

  /** Song i holds the records whose set id is the i-th first seen, and no
   *  Song is empty. */
  lemma GroupSongs(recs: seq<Difficulty>)
    ensures |Group(recs)| == |SetIds(recs)|
    ensures forall i | 0 <= i < |Group(recs)| ::
      Group(recs)[i].difficulties == Members(recs, SetIds(recs)[i]) && Group(recs)[i].difficulties != []
  {
    forall i | 0 <= i < |SetIds(recs)|
      ensures Group(recs)[i].difficulties == Members(recs, SetIds(recs)[i])
      ensures Group(recs)[i].difficulties != []
    {
      SongsOfAt(recs, SetIds(recs), i);
      MembersNonEmpty(recs, SetIds(recs)[i]);
    }
  }

  lemma {:induction false} SongsOfAt(recs: seq<Difficulty>, ids: seq<u32>, i: nat)
    requires i < |ids|
    ensures SongsOf(recs, ids)[i] == Song(Members(recs, ids[i]))
    decreases |ids|
  {
    if i < |ids| - 1 {
      var front := ids[..|ids| - 1];
      SongsOfAt(recs, front, i);
    }
  }

  /** Appending a record adds it to the songs of `ids` once if its set id
   *  is one of them, and not at all otherwise. */
  lemma {:induction false} SongsOfAppend(recs: seq<Difficulty>, r: Difficulty, ids: seq<u32>)
    requires forall i, j | 0 <= i < j < |ids| :: ids[i] != ids[j]
    ensures multiset(Flatten(SongsOf(recs + [r], ids))) ==
      multiset(Flatten(SongsOf(recs, ids))) + if r.beatmapsetId in ids then multiset{r} else multiset{}
    decreases |ids|
  {
    if ids != [] {
      var front, id := ids[..|ids| - 1], ids[|ids| - 1];
      SongsOfAppend(recs, r, front);
      assert (recs + [r])[..|recs|] == recs;
      assert SongsOf(recs + [r], ids)[..|front|] == SongsOf(recs + [r], front);
      assert SongsOf(recs, ids)[..|front|] == SongsOf(recs, front);
      assert r.beatmapsetId in ids <==> r.beatmapsetId in front || r.beatmapsetId == id;
    }
  }

  /** For distinct ids that include every record's set id, the songs hold
   *  the records exactly. */
  lemma {:induction false} SongsOfAll(recs: seq<Difficulty>, ids: seq<u32>)
    requires forall i, j | 0 <= i < j < |ids| :: ids[i] != ids[j]
    requires forall k | 0 <= k < |recs| :: recs[k].beatmapsetId in ids
    ensures multiset(Flatten(SongsOf(recs, ids))) == multiset(recs)
    decreases |recs|
  {
    if recs == [] {
      SongsOfNone(ids);
    } else {
      var front, r := recs[..|recs| - 1], recs[|recs| - 1];
      assert recs == front + [r];
      SongsOfAll(front, ids);
      SongsOfAppend(front, r, ids);
    }
  }

  /** With no records every song is empty. */
  lemma {:induction false} SongsOfNone(ids: seq<u32>)
    ensures Flatten(SongsOf([], ids)) == []
    decreases |ids|
  {
    if ids != [] {
      var front := ids[..|ids| - 1];
      SongsOfNone(front);
      assert SongsOf([], ids)[..|front|] == SongsOf([], front);
    }
  }

  /** Every record lands in exactly one Song: the songs' difficulties,
   *  taken together, are a permutation of the records. */
  lemma GroupPermutation(recs: seq<Difficulty>)
    ensures multiset(Flatten(Group(recs))) == multiset(recs)
  {
    SetIdsDistinct(recs);
    SetIdsCover(recs);
    SongsOfAll(recs, SetIds(recs));
  }

  /** No records give no songs and an empty index; any record gives at
   *  least one song. */
  lemma {:induction false} GroupEmpty(recs: seq<Difficulty>)
    ensures Group(recs) == [] <==> recs == []
    ensures Index(recs) == map[] <==> recs == []
  {
    if recs != [] {
      SetIdsCover(recs);
      assert recs[0].beatmapsetId in SetIds(recs);
      assert recs[|recs| - 1].beatmapId in Index(recs);
    }
  }

  // ---------------------------------------------------------------------
  // The beatmap-id index

  /** The index has a key for exactly the beatmap ids of the records. */
  lemma {:induction false} IndexKeys(recs: seq<Difficulty>)
    ensures Index(recs).Keys == set k | 0 <= k < |recs| :: recs[k].beatmapId
    decreases |recs|
  {
    if recs != [] {
      var front := recs[..|recs| - 1];
      IndexKeys(front);
      assert forall k | 0 <= k < |front| :: front[k] == recs[k];
    }
  }

  /** The last write wins: a beatmap id maps to the record at `k`, the last
   *  one with that id. */
  lemma {:induction false} IndexLast(recs: seq<Difficulty>, id: u32) returns (k: nat)
    requires id in Index(recs)
    ensures k < |recs| && Index(recs)[id] == recs[k] && recs[k].beatmapId == id
    ensures forall k' | k < k' < |recs| :: recs[k'].beatmapId != id
    decreases |recs|
  {
    var front := recs[..|recs| - 1];
    if recs[|recs| - 1].beatmapId == id {
      k := |recs| - 1;
    } else {
      k := IndexLast(front, id);
    }
  }
}
