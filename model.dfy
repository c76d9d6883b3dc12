/** The in-memory catalog (db/model.py): one Difficulty per chart, a Song per
 *  chart set, and the Songs container with its beatmap-id index. */
module Model {
  import opened Fmt

  datatype Option<+T> = None | Some(value: T)

  /** One playable chart.  Strings are their undecoded UTF-8 payloads; AR,
   *  CS, HP and OD are raw Single bit patterns. */
  datatype Difficulty = Difficulty(
    path: seq<byte>,
    name: seq<byte>,
    artist: seq<byte>,
    mapper: seq<byte>,
    difficulty: seq<byte>,
    ar: Bits32,
    cs: Bits32,
    hp: Bits32,
    od: Bits32,
    hash: seq<byte>,
    apiBeatmapId: u32,
    beatmapId: u32,
    beatmapsetId: u32,
    timing: seq<TimingPoint>)

  datatype Song = Song(difficulties: seq<Difficulty>)

  /** The first difficulty in `diffs` whose hash is `hash`. */
  function FindIn(diffs: seq<Difficulty>, hash: seq<byte>): Option<Difficulty>
  {
    if diffs == [] then None
    else if diffs[0].hash == hash then Some(diffs[0])
    else FindIn(diffs[1..], hash)
  }

  /** The first (song, difficulty) with hash `hash`, scanning the songs in
   *  order and each song's difficulties in order. */
  function Find(songs: seq<Song>, hash: seq<byte>): Option<(Song, Difficulty)>
  {
    if songs == [] then None
    else match FindIn(songs[0].difficulties, hash)
      case Some(d) => Some((songs[0], d))
      case None => Find(songs[1..], hash)
  }

  /** FindIn answers the earliest difficulty with the hash, and nothing only
   *  when no difficulty has it. */
  lemma {:induction false} FindInFirst(diffs: seq<Difficulty>, hash: seq<byte>) returns (j: nat)
    ensures FindIn(diffs, hash).None? <==> forall k | 0 <= k < |diffs| :: diffs[k].hash != hash
    ensures FindIn(diffs, hash).Some? ==>
      && j < |diffs| && diffs[j] == FindIn(diffs, hash).value && diffs[j].hash == hash
      && forall k | 0 <= k < j :: diffs[k].hash != hash
  {
    if diffs == [] {
      j := 0;
    } else if diffs[0].hash == hash {
      j := 0;
    } else {
      var k := FindInFirst(diffs[1..], hash);
      j := k + 1;
      assert forall k' | 1 <= k' < |diffs| :: diffs[k'] == diffs[1..][k' - 1];
    }
  }

  /** Find answers nothing exactly when no difficulty of any song has the
   *  hash; otherwise it answers song i and its difficulty j, whose hash is
   *  the one asked for, with no match in an earlier song and none earlier
   *  in song i. */
  lemma {:induction false} FindFirstMatch(songs: seq<Song>, hash: seq<byte>) returns (i: nat, j: nat)
    ensures Find(songs, hash).None? <==>
      forall i', j' | 0 <= i' < |songs| && 0 <= j' < |songs[i'].difficulties| ::
        songs[i'].difficulties[j'].hash != hash
    ensures Find(songs, hash).Some? ==>
      && i < |songs| && j < |songs[i].difficulties|
      && Find(songs, hash).value == (songs[i], songs[i].difficulties[j])
      && songs[i].difficulties[j].hash == hash
      && (forall i', j' | 0 <= i' < i && 0 <= j' < |songs[i'].difficulties| ::
            songs[i'].difficulties[j'].hash != hash)
      && (forall j' | 0 <= j' < j :: songs[i].difficulties[j'].hash != hash)
  {
    if songs == [] {
      i, j := 0, 0;
    } else {
      var j0 := FindInFirst(songs[0].difficulties, hash);
      if FindIn(songs[0].difficulties, hash).Some? {
        i, j := 0, j0;
      } else {
        var i1, j1 := FindFirstMatch(songs[1..], hash);
        i, j := i1 + 1, j1;
        assert forall i' | 1 <= i' < |songs| :: songs[i'] == songs[1..][i' - 1];
      }
    }
  }

  /** The catalog: songs in insertion order and the beatmap-id index. */
  class Songs {
    var songs: seq<Song>
    var bidMapping: map<u32, Difficulty>

    /** Songs.__init__ (db/model.py:30-33) */
    constructor ()
      ensures songs == [] && bidMapping == map[]
    {
      songs := [];
      bidMapping := map[];
    }

    /** add_song (db/model.py:35-38): appends the song, even an empty one. */
    method AddSong(song: Song)
      modifies this
      ensures songs == old(songs) + [song]
      ensures bidMapping == old(bidMapping)
    {
      songs := songs + [song];
    }

    /** get_song (db/model.py:40-51): a nested linear search by hash. */
    method GetSong(songHash: seq<byte>) returns (r: Option<(Song, Difficulty)>)
      ensures r == Find(songs, songHash)
    {
      for i := 0 to |songs|
        invariant Find(songs, songHash) == Find(songs[i..], songHash)
      {
        var song := songs[i];
        for j := 0 to |song.difficulties|
          invariant FindIn(song.difficulties, songHash) == FindIn(song.difficulties[j..], songHash)
        {
          if song.difficulties[j].hash == songHash {
            return Some((song, song.difficulties[j]));
          }
          assert song.difficulties[j..][1..] == song.difficulties[j + 1..];
        }
        assert songs[i..][1..] == songs[i + 1..];
      }
      return None;
    }
  }
}
