/** The record walker and loader of db/parser.py, step by step over the
 *  file cursor: each block of a record is read by a method that advances
 *  the Reader and is proved to do what the block's decoder in Records
 *  describes, and LoadDb builds the catalog with the source's two loops. */
module Parser {
  import opened Fmt
  import opened Model
  import opened Cursor
  import opened Assembly
  import Records

  /** `n` successive read_type("String") reads. */
  method ParseStrings(rd: Reader, n: nat) returns (r: Result<seq<seq<byte>>>)
    requires rd.Valid()
    modifies rd
    ensures rd.Valid() && Agrees(ReadMany(ReadString, rd.data, old(rd.pos), n), r, rd.pos)
  {
    ghost var p := rd.pos;
    var strings: seq<seq<byte>> := [];
    PrependNothing(ReadMany(ReadString, rd.data, p, n));
    for i := 0 to n
      invariant rd.Valid()
      invariant ReadMany(ReadString, rd.data, p, n) == Prepend(strings, ReadMany(ReadString, rd.data, rd.pos, n - i))
    {
      ghost var q := rd.pos;
      var x := rd.ReadString();
      if x.Err? {
        ReadLoopStop(ReadString, rd.data, p, n, i, strings, q, x.error);
        return Err(x.error);
      }
      ReadLoopAdvance(ReadString, rd.data, p, n, i, strings, q, x.value, rd.pos);
      strings := strings + [x.value];
    }
    assert strings + [] == strings;
    return Ok(strings);
  }

  /** The nine strings at the head of a record. */
  method ParseNames(rd: Reader) returns (r: Result<Records.Names>)
    requires rd.Valid()
    modifies rd
    ensures rd.Valid() && Agrees(Records.ReadNames(rd.data, old(rd.pos)), r, rd.pos)
  {
    var v :- ParseStrings(rd, 9);
    return Ok(Records.Names(v[0], v[1], v[2], v[3], v[4], v[5], v[6], v[7], v[8]));
  }

  /** Ranked status, last-modified Long, then the three object counts. */
  method ParseCounts(rd: Reader) returns (r: Result<Records.Counts>)
    requires rd.Valid()
    modifies rd
    ensures rd.Valid() && Agrees(Records.ReadCounts(rd.data, old(rd.pos)), r, rd.pos)
  {
    ghost var p := rd.pos;
    var vs :- rd.ReadKinds(Records.CountsLayout);
    ReadKindsShape(rd.data, p, Records.CountsLayout);
    return Ok(Records.CountsOf(vs));
  }

  /** AR, CS, HP, OD and the slider velocity. */
  method ParseStats(rd: Reader) returns (r: Result<Records.Stats>)
    requires rd.Valid()
    modifies rd
    ensures rd.Valid() && Agrees(Records.ReadStats(rd.data, old(rd.pos)), r, rd.pos)
  {
    ghost var p := rd.pos;
    var vs :- rd.ReadKinds(Records.StatsLayout);
    ReadKindsShape(rd.data, p, Records.StatsLayout);
    return Ok(Records.StatsOf(vs));
  }

  /** `n` successive Int-Double pairs. */
  method ParsePairs(rd: Reader, n: nat) returns (r: Result<seq<IntDoublePair>>)
    requires rd.Valid()
    modifies rd
    ensures rd.Valid() && Agrees(ReadMany(ReadIntDoublePair, rd.data, old(rd.pos), n), r, rd.pos)
  {
    ghost var p := rd.pos;
    var pairs: seq<IntDoublePair> := [];
    PrependNothing(ReadMany(ReadIntDoublePair, rd.data, p, n));
    for i := 0 to n
      invariant rd.Valid()
      invariant ReadMany(ReadIntDoublePair, rd.data, p, n)
        == Prepend(pairs, ReadMany(ReadIntDoublePair, rd.data, rd.pos, n - i))
    {
      ghost var q := rd.pos;
      var x := rd.ReadIntDoublePair();
      if x.Err? {
        ReadLoopStop(ReadIntDoublePair, rd.data, p, n, i, pairs, q, x.error);
        return Err(x.error);
      }
      ReadLoopAdvance(ReadIntDoublePair, rd.data, p, n, i, pairs, q, x.value, rd.pos);
      pairs := pairs + [x.value];
    }
    assert pairs + [] == pairs;
    return Ok(pairs);
  }

  /** read_SR: the count, then that many Int-Double pairs. */
  method ParseStarTable(rd: Reader) returns (r: Result<Records.Counted<IntDoublePair>>)
    requires rd.Valid()
    modifies rd
    ensures rd.Valid() && Agrees(Records.ReadStarTable(rd.data, old(rd.pos)), r, rd.pos)
  {
    var n :- rd.ReadInt();
    var pairs :- ParsePairs(rd, n);
    return Ok(pairs);
  }

  /** `n` successive star tables. */
  method ParseStarTables(rd: Reader, n: nat) returns (r: Result<seq<Records.Counted<IntDoublePair>>>)
    requires rd.Valid()
    modifies rd
    ensures rd.Valid() && Agrees(ReadMany(Records.ReadStarTable, rd.data, old(rd.pos), n), r, rd.pos)
  {
    ghost var p := rd.pos;
    var tables: seq<Records.Counted<IntDoublePair>> := [];
    PrependNothing(ReadMany(Records.ReadStarTable, rd.data, p, n));
    for i := 0 to n
      invariant rd.Valid()
      invariant ReadMany(Records.ReadStarTable, rd.data, p, n)
        == Prepend(tables, ReadMany(Records.ReadStarTable, rd.data, rd.pos, n - i))
    {
      ghost var q := rd.pos;
      var t := ParseStarTable(rd);
      if t.Err? {
        ReadLoopStop(Records.ReadStarTable, rd.data, p, n, i, tables, q, t.error);
        return Err(t.error);
      }
      ReadLoopAdvance(Records.ReadStarTable, rd.data, p, n, i, tables, q, t.value, rd.pos);
      tables := tables + [t.value];
    }
    assert tables + [] == tables;
    return Ok(tables);
  }

  /** The four star tables, standard, taiko, ctb and mania. */
  method ParseStars(rd: Reader) returns (r: Result<Records.Stars>)
    requires rd.Valid()
    modifies rd
    ensures rd.Valid() && Agrees(Records.ReadStars(rd.data, old(rd.pos)), r, rd.pos)
  {
    var tables :- ParseStarTables(rd, 4);
    return Ok(Records.StarsOf(tables));
  }

  /** Drain, total and preview times. */
  method ParseTimes(rd: Reader) returns (r: Result<Records.Times>)
    requires rd.Valid()
    modifies rd
    ensures rd.Valid() && Agrees(Records.ReadTimes(rd.data, old(rd.pos)), r, rd.pos)
  {
    ghost var p := rd.pos;
    var vs :- rd.ReadKinds(Records.TimesLayout);
    ReadKindsShape(rd.data, p, Records.TimesLayout);
    return Ok(Records.TimesOf(vs));
  }

  /** `n` successive timing points. */
  method ParseTimingPointList(rd: Reader, n: nat) returns (r: Result<seq<TimingPoint>>)
    requires rd.Valid()
    modifies rd
    ensures rd.Valid() && Agrees(ReadMany(ReadTimingPoint, rd.data, old(rd.pos), n), r, rd.pos)
  {
    ghost var p := rd.pos;
    var points: seq<TimingPoint> := [];
    PrependNothing(ReadMany(ReadTimingPoint, rd.data, p, n));
    for i := 0 to n
      invariant rd.Valid()
      invariant ReadMany(ReadTimingPoint, rd.data, p, n)
        == Prepend(points, ReadMany(ReadTimingPoint, rd.data, rd.pos, n - i))
    {
      ghost var q := rd.pos;
      var t := rd.ReadTimingPoint();
      if t.Err? {
        ReadLoopStop(ReadTimingPoint, rd.data, p, n, i, points, q, t.error);
        return Err(t.error);
      }
      ReadLoopAdvance(ReadTimingPoint, rd.data, p, n, i, points, q, t.value, rd.pos);
      points := points + [t.value];
    }
    assert points + [] == points;
    return Ok(points);
  }

  /** The timing-point count, then that many timing points. */
  method ParseTimingPoints(rd: Reader) returns (r: Result<Records.Counted<TimingPoint>>)
    requires rd.Valid()
    modifies rd
    ensures rd.Valid() && Agrees(Records.ReadTimingPoints(rd.data, old(rd.pos)), r, rd.pos)
  {
    var n :- rd.ReadInt();
    var points :- ParseTimingPointList(rd, n);
    return Ok(points);
  }

  /** Beatmap, set and thread ids, then the four grades. */
  method ParseIds(rd: Reader) returns (r: Result<Records.Ids>)
    requires rd.Valid()
    modifies rd
    ensures rd.Valid() && Agrees(Records.ReadIds(rd.data, old(rd.pos)), r, rd.pos)
  {
    ghost var p := rd.pos;
    var n :- rd.ReadBatch(3, Int);
    BatchKinds(rd.data, p, 3, Int);
    ghost var p1 := rd.pos;
    var g :- rd.ReadBatch(4, Byte);
    BatchKinds(rd.data, p1, 4, Byte);
    return Ok(Records.Ids(n[0].i, n[1].i, n[2].i, g[0].b, g[1].b, g[2].b, g[3].b));
  }

  /** Local offset, stack leniency, mode, source, tags, online offset. */
  method ParseMeta(rd: Reader) returns (r: Result<Records.Meta>)
    requires rd.Valid()
    modifies rd
    ensures rd.Valid() && Agrees(Records.ReadMeta(rd.data, old(rd.pos)), r, rd.pos)
  {
    ghost var p := rd.pos;
    var vs :- rd.ReadKinds(Records.MetaLayout);
    ReadKindsShape(rd.data, p, Records.MetaLayout);
    return Ok(Records.MetaOf(vs));
  }

  /** Font, unplayed, last played, osz2, folder, last checked. */
  method ParseVisits(rd: Reader) returns (r: Result<Records.Visits>)
    requires rd.Valid()
    modifies rd
    ensures rd.Valid() && Agrees(Records.ReadVisits(rd.data, old(rd.pos)), r, rd.pos)
  {
    ghost var p := rd.pos;
    var vs :- rd.ReadKinds(Records.VisitsLayout);
    ReadKindsShape(rd.data, p, Records.VisitsLayout);
    return Ok(Records.VisitsOf(vs));
  }

  /** The five flags, the unknown Int and the mania scroll speed. */
  method ParseTrailer(rd: Reader) returns (r: Result<Records.Trailer>)
    requires rd.Valid()
    modifies rd
    ensures rd.Valid() && Agrees(Records.ReadTrailer(rd.data, old(rd.pos)), r, rd.pos)
  {
    ghost var p := rd.pos;
    var f :- rd.ReadBatch(5, Boolean);
    BatchKinds(rd.data, p, 5, Boolean);
    var unknownModified :- rd.ReadInt();
    var maniaScrollSpeed :- rd.ReadByte();
    return Ok(Records.Trailer(f[0].flag, f[1].flag, f[2].flag, f[3].flag, f[4].flag,
                              unknownModified, maniaScrollSpeed));
  }

  /** parse_beatmap: the record's blocks in file order, then the
   *  Difficulty built from them. */
  method ParseBeatmap(rd: Reader) returns (r: Result<Difficulty>)
    requires rd.Valid()
    modifies rd
    ensures rd.Valid() && Agrees(Records.ParseBeatmap(rd.data, old(rd.pos)), r, rd.pos)
  {
    var names :- ParseNames(rd);
    var counts :- ParseCounts(rd);
    var stats :- ParseStats(rd);
    var stars :- ParseStars(rd);
    var times :- ParseTimes(rd);
    var timing :- ParseTimingPoints(rd);
    var ids :- ParseIds(rd);
    var meta :- ParseMeta(rd);
    var visits :- ParseVisits(rd);
    var trailer :- ParseTrailer(rd);
    var b := Records.Beatmap(names, counts, stats, stars, times, timing, ids, meta, visits, trailer);
    return Ok(Records.ToDifficulty(b));
  }

  /** The six header fields. */
  method ParseHeader(rd: Reader) returns (r: Result<Records.Header>)
    requires rd.Valid()
    modifies rd
    ensures rd.Valid() && Agrees(Records.ReadHeader(rd.data, old(rd.pos)), r, rd.pos)
  {
    ghost var p := rd.pos;
    var vs :- rd.ReadKinds(Records.HeaderLayout);
    ReadKindsShape(rd.data, p, Records.HeaderLayout);
    return Ok(Records.HeaderOf(vs));
  }

  /** The record loop of load_db: `n` parse_beatmap calls. */
  method ParseRecords(rd: Reader, n: nat) returns (r: Result<seq<Difficulty>>)
    requires rd.Valid()
    modifies rd
    ensures rd.Valid() && Agrees(ReadMany(Records.ParseBeatmap, rd.data, old(rd.pos), n), r, rd.pos)
  {
    ghost var p := rd.pos;
    var beatmaps: seq<Difficulty> := [];
    PrependNothing(ReadMany(Records.ParseBeatmap, rd.data, p, n));
    for i := 0 to n
      invariant rd.Valid()
      invariant ReadMany(Records.ParseBeatmap, rd.data, p, n)
        == Prepend(beatmaps, ReadMany(Records.ParseBeatmap, rd.data, rd.pos, n - i))
    {
      ghost var q := rd.pos;
      var d := ParseBeatmap(rd);
      if d.Err? {
        ReadLoopStop(Records.ParseBeatmap, rd.data, p, n, i, beatmaps, q, d.error);
        return Err(d.error);
      }
      ReadLoopAdvance(Records.ParseBeatmap, rd.data, p, n, i, beatmaps, q, d.value, rd.pos);
      beatmaps := beatmaps + [d.value];
    }
    assert beatmaps + [] == beatmaps;
    return Ok(beatmaps);
  }

  /** The grouping loop of load_db: every record is written into
   *  bid_mapping under its beatmap id and appended to its set's list,
   *  a set id getting its list (and its place in the key order) when
   *  first seen; then one Song per set is added, in key order. */
  method Assemble(beatmaps: seq<Difficulty>) returns (songs: Songs)
    ensures fresh(songs)
    ensures songs.songs == Group(beatmaps) && songs.bidMapping == Index(beatmaps)
  {
    songs := new Songs();
    var keys: seq<u32> := [];
    var mapsets: map<u32, seq<Difficulty>> := map[];
    for i := 0 to |beatmaps|
      invariant keys == SetIds(beatmaps[..i])
      invariant forall id :: id in mapsets <==> id in keys
      invariant forall id | id in mapsets :: mapsets[id] == Members(beatmaps[..i], id)
      invariant songs.songs == [] && songs.bidMapping == Index(beatmaps[..i])
    {
      var m := beatmaps[i];
      ghost var before := mapsets;
      assert beatmaps[..i + 1][..i] == beatmaps[..i];
      if m.beatmapsetId !in mapsets {
        MembersAbsent(beatmaps[..i], m.beatmapsetId);
      }
      songs.bidMapping := songs.bidMapping[m.beatmapId := m];
      if m.beatmapsetId in mapsets {
        mapsets := mapsets[m.beatmapsetId := mapsets[m.beatmapsetId] + [m]];
      } else {
        keys := keys + [m.beatmapsetId];
        mapsets := mapsets[m.beatmapsetId := [m]];
      }
      forall id | id in mapsets
        ensures mapsets[id] == Members(beatmaps[..i + 1], id)
      {
        assert beatmaps[..i + 1][i] == m;
        if id != m.beatmapsetId {
          assert mapsets[id] == before[id];
        }
      }
    }
    assert beatmaps[..|beatmaps|] == beatmaps;

    for j := 0 to |keys|
      invariant songs.songs == SongsOf(beatmaps, keys[..j])
      invariant songs.bidMapping == Index(beatmaps)
    {
      assert keys[..j + 1][..j] == keys[..j];
      songs.AddSong(Song(mapsets[keys[j]]));
    }
    assert keys[..|keys|] == keys;
  }

  /** load_db over the file's bytes: the header, num_maps records, then
   *  the catalog.  The catalog exists exactly when the file decodes, and
   *  a file that does not decode gives the decoder's error. */
  method LoadDb(data: seq<byte>) returns (r: Result<Songs>)
    ensures r.Ok? <==> Records.ReadRecords(data).Ok?
    ensures r.Err? ==> r.error == Records.ReadRecords(data).error
    ensures r.Ok? ==>
      && fresh(r.value)
      && r.value.songs == Group(Records.ReadRecords(data).value)
      && r.value.bidMapping == Index(Records.ReadRecords(data).value)
  {
    var rd := new Reader(data);
    var header :- ParseHeader(rd);
    var beatmaps :- ParseRecords(rd, header.numMaps);
    var songs := Assemble(beatmaps);
    return Ok(songs);
  }
}
