/** The layout of the osu!.db file (db/parser.py): the six-field header,
 *  then `numMaps` beatmap records, each a fixed sequence of primitive reads
 *  grouped here into the blocks the parser reads one after the other.
 *  Every block has an encoder, and decoding an encoding gives the block
 *  back; the record decoder keeps a subset of the fields as a Difficulty. */
module Records {
  import opened Fmt
  import opened Model

  /** A list preceded on the wire by an Int count. */
  type Counted<T> = xs: seq<T> | |xs| < 0x1_0000_0000 witness []

  /** The nine strings at the start of a record. */
  datatype Names = Names(
    artist: seq<byte>,
    artistUnicode: seq<byte>,
    title: seq<byte>,
    titleUnicode: seq<byte>,
    creator: seq<byte>,
    difficulty: seq<byte>,
    audioFile: seq<byte>,
    md5: seq<byte>,
    osuFile: seq<byte>)

  /** Ranked status, last modification time and object counts, in the
   *  order the parser reads them: the Long before the three Shorts. */
  datatype Counts = Counts(rankedStatus: byte, lastModified: u64, hitCircles: u16, sliders: u16, spinners: u16)

  /** AR, CS, HP and OD (always four Singles) and the slider velocity. */
  datatype Stats = Stats(ar: Bits32, cs: Bits32, hp: Bits32, od: Bits32, sliderVelocity: Bits64)

  /** The star-rating tables of the four game modes. */
  datatype Stars = Stars(
    standard: Counted<IntDoublePair>,
    taiko: Counted<IntDoublePair>,
    ctb: Counted<IntDoublePair>,
    mania: Counted<IntDoublePair>)

  datatype Times = Times(drain: u32, total: u32, preview: u32)

  /** The Int batch (beatmap id, set id, thread id) and the Byte batch of
   *  grades. */
  datatype Ids = Ids(
    beatmapId: u32,
    beatmapsetId: u32,
    threadId: u32,
    gradeStandard: byte,
    gradeTaiko: byte,
    gradeCtb: byte,
    gradeMania: byte)

  /** Offsets, stack leniency, mode, source and tags. */
  datatype Meta = Meta(
    localOffset: u16,
    stackLeniency: Bits32,
    gameplayMode: byte,
    source: seq<byte>,
    tags: seq<byte>,
    onlineOffset: u16)

  /** Title font, play history, osz2 flag and folder. */
  datatype Visits = Visits(
    font: seq<byte>,
    unplayed: bool,
    lastPlayed: u64,
    isOsz2: bool,
    folder: seq<byte>,
    lastChecked: u64)

  /** The Boolean batch of overrides, the unknown Int and the mania scroll
   *  speed. */
  datatype Trailer = Trailer(
    ignoreSounds: bool,
    ignoreSkin: bool,
    disableStoryboard: bool,
    disableVideo: bool,
    visualOverride: bool,
    unknownModified: u32,
    maniaScrollSpeed: byte)

  /** Every field of one record, in file order. */
  datatype Beatmap = Beatmap(
    names: Names,
    counts: Counts,
    stats: Stats,
    stars: Stars,
    times: Times,
    timing: Counted<TimingPoint>,
    ids: Ids,
    meta: Meta,
    visits: Visits,
    trailer: Trailer)

  datatype Header = Header(
    version: u32,
    folderCount: u32,
    accountUnlocked: bool,
    unlockTime: u64,
    playerName: seq<byte>,
    numMaps: u32)

  // ---------------------------------------------------------------------
  // Each block as the values parse_beatmap reads for it, in file order.
  // A run of read_type calls of mixed kinds is read as the list of its
  // kinds (ReadKinds); the values of a block are listed by `XValues` and
  // put back into the block by `XOf`.

  const CountsLayout: seq<Kind> := [Byte] + [Long, Short, Short, Short]
  const StatsLayout: seq<Kind> := [Single] + [Single, Single, Single, Double]
  const TimesLayout: seq<Kind> := [Int] + [Int, Int]
  const MetaLayout: seq<Kind> := [Short] + [Single, Byte, String, String, Short]
  const VisitsLayout: seq<Kind> := [String] + [Boolean, Long, Boolean, String, Long]
  const HeaderLayout: seq<Kind> := [Int] + [Int, Boolean, DateTime, String, Int]

  function NameList(n: Names): (l: seq<seq<byte>>)
    ensures |l| == 9
  {
    [n.artist, n.artistUnicode, n.title, n.titleUnicode, n.creator, n.difficulty, n.audioFile, n.md5, n.osuFile]
  }

  function CountsValues(c: Counts): (vs: seq<Value>)
    ensures OfKinds(vs, CountsLayout)
  {
    [ByteValue(c.rankedStatus), LongValue(c.lastModified), ShortValue(c.hitCircles),
     ShortValue(c.sliders), ShortValue(c.spinners)]
  }

  function CountsOf(v: seq<Value>): Counts
    requires OfKinds(v, CountsLayout)
  {
    Counts(v[0].b, v[1].l, v[2].sh, v[3].sh, v[4].sh)
  }

  function StatsValues(st: Stats): (vs: seq<Value>)
    ensures OfKinds(vs, StatsLayout)
  {
    [SingleValue(st.ar), SingleValue(st.cs), SingleValue(st.hp), SingleValue(st.od), DoubleValue(st.sliderVelocity)]
  }

  function StatsOf(v: seq<Value>): Stats
    requires OfKinds(v, StatsLayout)
  {
    Stats(v[0].f, v[1].f, v[2].f, v[3].f, v[4].d)
  }

  function StarList(st: Stars): (l: seq<Counted<IntDoublePair>>)
    ensures |l| == 4
  {
    [st.standard, st.taiko, st.ctb, st.mania]
  }

  function StarsOf(t: seq<Counted<IntDoublePair>>): Stars
    requires |t| == 4
  {
    Stars(t[0], t[1], t[2], t[3])
  }

  function TimesValues(t: Times): (vs: seq<Value>)
    ensures OfKinds(vs, TimesLayout)
  {
    [IntValue(t.drain), IntValue(t.total), IntValue(t.preview)]
  }

  function TimesOf(v: seq<Value>): Times
    requires OfKinds(v, TimesLayout)
  {
    Times(v[0].i, v[1].i, v[2].i)
  }

  function IdValues(ids: Ids): (vs: seq<Value>)
    ensures |vs| == 3 && forall i | 0 <= i < 3 :: vs[i].KindOf() == Int
  {
    [IntValue(ids.beatmapId), IntValue(ids.beatmapsetId), IntValue(ids.threadId)]
  }

  function GradeValues(ids: Ids): (vs: seq<Value>)
    ensures |vs| == 4 && forall i | 0 <= i < 4 :: vs[i].KindOf() == Byte
  {
    [ByteValue(ids.gradeStandard), ByteValue(ids.gradeTaiko), ByteValue(ids.gradeCtb), ByteValue(ids.gradeMania)]
  }

  function MetaValues(m: Meta): (vs: seq<Value>)
    ensures OfKinds(vs, MetaLayout)
  {
    [ShortValue(m.localOffset), SingleValue(m.stackLeniency), ByteValue(m.gameplayMode),
     StringValue(m.source), StringValue(m.tags), ShortValue(m.onlineOffset)]
  }

  function MetaOf(v: seq<Value>): Meta
    requires OfKinds(v, MetaLayout)
  {
    Meta(v[0].sh, v[1].f, v[2].b, v[3].payload, v[4].payload, v[5].sh)
  }

  function VisitsValues(w: Visits): (vs: seq<Value>)
    ensures OfKinds(vs, VisitsLayout)
  {
    [StringValue(w.font), BooleanValue(w.unplayed), LongValue(w.lastPlayed),
     BooleanValue(w.isOsz2), StringValue(w.folder), LongValue(w.lastChecked)]
  }

  function VisitsOf(v: seq<Value>): Visits
    requires OfKinds(v, VisitsLayout)
  {
    Visits(v[0].payload, v[1].flag, v[2].l, v[3].flag, v[4].payload, v[5].l)
  }

  function FlagValues(t: Trailer): (vs: seq<Value>)
    ensures |vs| == 5 && forall i | 0 <= i < 5 :: vs[i].KindOf() == Boolean
  {
    [BooleanValue(t.ignoreSounds), BooleanValue(t.ignoreSkin), BooleanValue(t.disableStoryboard),
     BooleanValue(t.disableVideo), BooleanValue(t.visualOverride)]
  }

  function HeaderValues(h: Header): (vs: seq<Value>)
    ensures OfKinds(vs, HeaderLayout)
  {
    [IntValue(h.version), IntValue(h.folderCount), BooleanValue(h.accountUnlocked),
     DateTimeValue(h.unlockTime), StringValue(h.playerName), IntValue(h.numMaps)]
  }

  function HeaderOf(v: seq<Value>): Header
    requires OfKinds(v, HeaderLayout)
  {
    Header(v[0].i, v[1].i, v[2].flag, v[3].ticks, v[4].payload, v[5].i)
  }

  // ---------------------------------------------------------------------
  // Decoders

  /** Nine read_type("String") reads. */
  function ReadNames(s: seq<byte>, p: nat): Result<Parsed<Names>>
  {
    var vs :- ReadMany(ReadString, s, p, 9);
    var v := vs.value;
    Ok(Parsed(Names(v[0], v[1], v[2], v[3], v[4], v[5], v[6], v[7], v[8]), vs.next))
  }

  /** The Long is read before the three Shorts. */
  function ReadCounts(s: seq<byte>, p: nat): Result<Parsed<Counts>>
  {
    var vs :- ReadKinds(s, p, CountsLayout);
    ReadKindsShape(s, p, CountsLayout);
    Ok(Parsed(CountsOf(vs.value), vs.next))
  }

  /** AR, CS, HP and OD are always four Singles. */
  function ReadStats(s: seq<byte>, p: nat): Result<Parsed<Stats>>
  {
    var vs :- ReadKinds(s, p, StatsLayout);
    ReadKindsShape(s, p, StatsLayout);
    Ok(Parsed(StatsOf(vs.value), vs.next))
  }

  /** read_SR: an Int count k, then k Int-Double pairs. */
  function ReadStarTable(s: seq<byte>, p: nat): Result<Parsed<Counted<IntDoublePair>>>
  {
    var count :- ReadInt(s, p);
    var pairs :- ReadMany(ReadIntDoublePair, s, count.next, count.value);
    Ok(Parsed(pairs.value, pairs.next))
  }

  /** Four star tables: standard, taiko, ctb, mania. */
  function ReadStars(s: seq<byte>, p: nat): Result<Parsed<Stars>>
  {
    var tables :- ReadMany(ReadStarTable, s, p, 4);
    Ok(Parsed(StarsOf(tables.value), tables.next))
  }

  function ReadTimes(s: seq<byte>, p: nat): Result<Parsed<Times>>
  {
    var vs :- ReadKinds(s, p, TimesLayout);
    ReadKindsShape(s, p, TimesLayout);
    Ok(Parsed(TimesOf(vs.value), vs.next))
  }

  /** An Int count k, then k timing points. */
  function ReadTimingPoints(s: seq<byte>, p: nat): Result<Parsed<Counted<TimingPoint>>>
  {
    var count :- ReadInt(s, p);
    var points :- ReadMany(ReadTimingPoint, s, count.next, count.value);
    Ok(Parsed(points.value, points.next))
  }

  /** read_batch(3, "Int") then read_batch(4, "Byte"). */
  function ReadIds(s: seq<byte>, p: nat): Result<Parsed<Ids>>
  {
    var ints :- ReadBatch(s, p, 3, Int);
    BatchKinds(s, p, 3, Int);
    var grades :- ReadBatch(s, ints.next, 4, Byte);
    BatchKinds(s, ints.next, 4, Byte);
    var n := ints.value;
    var g := grades.value;
    Ok(Parsed(Ids(n[0].i, n[1].i, n[2].i, g[0].b, g[1].b, g[2].b, g[3].b), grades.next))
  }

  function ReadMeta(s: seq<byte>, p: nat): Result<Parsed<Meta>>
  {
    var vs :- ReadKinds(s, p, MetaLayout);
    ReadKindsShape(s, p, MetaLayout);
    Ok(Parsed(MetaOf(vs.value), vs.next))
  }

  function ReadVisits(s: seq<byte>, p: nat): Result<Parsed<Visits>>
  {
    var vs :- ReadKinds(s, p, VisitsLayout);
    ReadKindsShape(s, p, VisitsLayout);
    Ok(Parsed(VisitsOf(vs.value), vs.next))
  }

  /** read_batch(5, "Boolean"), then the unknown Int and the scroll speed
   *  Byte; no version-dependent Short is read. */
  function ReadTrailer(s: seq<byte>, p: nat): Result<Parsed<Trailer>>
  {
    var flags :- ReadBatch(s, p, 5, Boolean);
    BatchKinds(s, p, 5, Boolean);
    var unknownModified :- ReadInt(s, flags.next);
    var maniaScrollSpeed :- ReadByte(s, unknownModified.next);
    var f := flags.value;
    Ok(Parsed(Trailer(f[0].flag, f[1].flag, f[2].flag, f[3].flag, f[4].flag,
                      unknownModified.value, maniaScrollSpeed.value), maniaScrollSpeed.next))
  }

  /** One whole record, block after block. */
  function ReadBeatmap(s: seq<byte>, p: nat): Result<Parsed<Beatmap>>
  {
    var names :- ReadNames(s, p);
    var counts :- ReadCounts(s, names.next);
    var stats :- ReadStats(s, counts.next);
    var stars :- ReadStars(s, stats.next);
    var times :- ReadTimes(s, stars.next);
    var timing :- ReadTimingPoints(s, times.next);
    var ids :- ReadIds(s, timing.next);
    var meta :- ReadMeta(s, ids.next);
    var visits :- ReadVisits(s, meta.next);
    var trailer :- ReadTrailer(s, visits.next);
    Ok(Parsed(Beatmap(names.value, counts.value, stats.value, stars.value, times.value, timing.value,
                      ids.value, meta.value, visits.value, trailer.value), trailer.next))
  }

  /** The Difficulty built from a record (db/parser.py:254-269). */
  function ToDifficulty(b: Beatmap): Difficulty
  {
    Difficulty(b.names.osuFile, b.names.title, b.names.artist, b.names.creator, b.names.difficulty,
               b.stats.ar, b.stats.cs, b.stats.hp, b.stats.od, b.names.md5,
               b.ids.beatmapId, b.ids.beatmapId, b.ids.beatmapsetId, b.timing)
  }

  /** parse_beatmap */
  function ParseBeatmap(s: seq<byte>, p: nat): Result<Parsed<Difficulty>>
  {
    var b :- ReadBeatmap(s, p);
    Ok(Parsed(ToDifficulty(b.value), b.next))
  }

  /** Int, Int, Boolean, DateTime, String, Int. */
  function ReadHeader(s: seq<byte>, p: nat): Result<Parsed<Header>>
  {
    var vs :- ReadKinds(s, p, HeaderLayout);
    ReadKindsShape(s, p, HeaderLayout);
    Ok(Parsed(HeaderOf(vs.value), vs.next))
  }

  /** The records of a whole file: the header at offset 0, then exactly
   *  `numMaps` records.  Bytes after the last record are ignored. */
  function ReadRecords(s: seq<byte>): Result<seq<Difficulty>>
  {
    var header :- ReadHeader(s, 0);
    var records :- ReadMany(ParseBeatmap, s, header.next, header.value.numMaps);
    Ok(records.value)
  }

  // ---------------------------------------------------------------------
  // Encoders

  function NamesBytes(n: Names): seq<byte>
  {
    EncodeMany(StringBytes, NameList(n))
  }

  function CountsBytes(c: Counts): seq<byte>
  {
    EncodeMany(ValueBytes, CountsValues(c))
  }

  function StatsBytes(st: Stats): seq<byte>
  {
    EncodeMany(ValueBytes, StatsValues(st))
  }

  function StarTableBytes(xs: Counted<IntDoublePair>): seq<byte>
  {
    LittleEndianBytes(|xs|, 4) + EncodeMany(IntDoublePairBytes, xs)
  }

  function StarsBytes(st: Stars): seq<byte>
  {
    EncodeMany(StarTableBytes, StarList(st))
  }

  function TimesBytes(t: Times): seq<byte>
  {
    EncodeMany(ValueBytes, TimesValues(t))
  }

  function TimingBytes(ts: Counted<TimingPoint>): seq<byte>
  {
    LittleEndianBytes(|ts|, 4) + EncodeMany(TimingPointBytes, ts)
  }

  function IdsBytes(ids: Ids): seq<byte>
  {
    EncodeMany(ValueBytes, IdValues(ids)) + EncodeMany(ValueBytes, GradeValues(ids))
  }

  function MetaBytes(m: Meta): seq<byte>
  {
    EncodeMany(ValueBytes, MetaValues(m))
  }

  function VisitsBytes(w: Visits): seq<byte>
  {
    EncodeMany(ValueBytes, VisitsValues(w))
  }

  function TrailerBytes(t: Trailer): seq<byte>
  {
    EncodeMany(ValueBytes, FlagValues(t)) + LittleEndianBytes(t.unknownModified, 4) + [t.maniaScrollSpeed]
  }

  function BeatmapBytes(b: Beatmap): seq<byte>
  {
    NamesBytes(b.names) + CountsBytes(b.counts) + StatsBytes(b.stats) + StarsBytes(b.stars)
    + TimesBytes(b.times) + TimingBytes(b.timing) + IdsBytes(b.ids) + MetaBytes(b.meta)
    + VisitsBytes(b.visits) + TrailerBytes(b.trailer)
  }

  function HeaderBytes(h: Header): seq<byte>
  {
    EncodeMany(ValueBytes, HeaderValues(h))
  }

  // ---------------------------------------------------------------------
  // Round trips: each decoder, applied where its block's encoding occurs,
  // gives the block back and consumes exactly the encoding.

  lemma NamesRoundTrip(n: Names, s: seq<byte>, p: nat, q: nat)
    requires Embeds(s, p, NamesBytes(n)) && q == p + |NamesBytes(n)|
    ensures ReadNames(s, p) == Ok(Parsed(n, q))
  {
    StringReads(s);
    ReadManyRoundTripTo(ReadString, StringBytes, NameList(n), s, p, q);
    NamesFromList(n, s, p, q);
  }

  /** Reading the nine strings of `n` is reading `n`. */
  lemma NamesFromList(n: Names, s: seq<byte>, p: nat, q: nat)
    requires ReadMany(ReadString, s, p, 9) == Ok(Parsed(NameList(n), q))
    ensures ReadNames(s, p) == Ok(Parsed(n, q))
  {
  }

  lemma CountsRoundTrip(c: Counts, s: seq<byte>, p: nat, q: nat)
    requires Embeds(s, p, CountsBytes(c)) && q == p + |CountsBytes(c)|
    ensures ReadCounts(s, p) == Ok(Parsed(c, q))
  {
    KindsRoundTrip(CountsValues(c), CountsLayout, s, p, q);
  }

  lemma StatsRoundTrip(st: Stats, s: seq<byte>, p: nat, q: nat)
    requires Embeds(s, p, StatsBytes(st)) && q == p + |StatsBytes(st)|
    ensures ReadStats(s, p) == Ok(Parsed(st, q))
  {
    KindsRoundTrip(StatsValues(st), StatsLayout, s, p, q);
  }

  /** A star table is its Int count and exactly that many pairs. */
  lemma StarTableRoundTrip(xs: Counted<IntDoublePair>, s: seq<byte>, p: nat)
    requires Embeds(s, p, StarTableBytes(xs))
    ensures ReadStarTable(s, p) == Ok(Parsed(xs, p + |StarTableBytes(xs)|))
  {
    Pow256Widths();
    EmbedsSplit(s, p, LittleEndianBytes(|xs|, 4), EncodeMany(IntDoublePairBytes, xs));
    UIntRoundTrip(|xs|, 4, s, p);
    PairsRoundTrip(xs, s, p + 4);
  }

  /** StarTableRoundTrip at every position. */
  lemma StarTableReads(s: seq<byte>)
    ensures ReadsBack(ReadStarTable, StarTableBytes, s)
  {
    forall xs: Counted<IntDoublePair>, q: nat | Embeds(s, q, StarTableBytes(xs))
      ensures ReadStarTable(s, q) == Ok(Parsed(xs, q + |StarTableBytes(xs)|))
    {
      StarTableRoundTrip(xs, s, q);
    }
  }

  lemma StarsRoundTrip(st: Stars, s: seq<byte>, p: nat, q: nat)
    requires Embeds(s, p, StarsBytes(st)) && q == p + |StarsBytes(st)|
    ensures ReadStars(s, p) == Ok(Parsed(st, q))
  {
    StarTableReads(s);
    ReadManyRoundTripTo(ReadStarTable, StarTableBytes, StarList(st), s, p, q);
    StarsFromTables(st, s, p, q);
  }

  /** Reading the four tables of `st` is reading `st`. */
  lemma StarsFromTables(st: Stars, s: seq<byte>, p: nat, q: nat)
    requires ReadMany(ReadStarTable, s, p, 4) == Ok(Parsed(StarList(st), q))
    ensures ReadStars(s, p) == Ok(Parsed(st, q))
  {
    assert StarsOf(StarList(st)) == st;
  }

  lemma TimesRoundTrip(t: Times, s: seq<byte>, p: nat, q: nat)
    requires Embeds(s, p, TimesBytes(t)) && q == p + |TimesBytes(t)|
    ensures ReadTimes(s, p) == Ok(Parsed(t, q))
  {
    KindsRoundTrip(TimesValues(t), TimesLayout, s, p, q);
  }

  /** The timing block is its Int count and exactly that many points, in
   *  file order. */
  lemma TimingRoundTrip(ts: Counted<TimingPoint>, s: seq<byte>, p: nat, q: nat)
    requires Embeds(s, p, TimingBytes(ts)) && q == p + |TimingBytes(ts)|
    ensures ReadTimingPoints(s, p) == Ok(Parsed(ts, q))
  {
    Pow256Widths();
    EmbedsSplit(s, p, LittleEndianBytes(|ts|, 4), EncodeMany(TimingPointBytes, ts));
    UIntRoundTrip(|ts|, 4, s, p);
    TimingPointsRoundTrip(ts, s, p + 4);
  }

  lemma IdsRoundTrip(ids: Ids, s: seq<byte>, p: nat, q: nat)
    requires Embeds(s, p, IdsBytes(ids)) && q == p + |IdsBytes(ids)|
    ensures ReadIds(s, p) == Ok(Parsed(ids, q))
  {
    var ints := IdValues(ids);
    var grades := GradeValues(ids);
    var p1 := p + |EncodeMany(ValueBytes, ints)|;
    EmbedsSplit(s, p, EncodeMany(ValueBytes, ints), EncodeMany(ValueBytes, grades));
    BatchRoundTrip(ints, Int, s, p, p1);
    BatchRoundTrip(grades, Byte, s, p1, q);
    IdsFromBatches(ids, s, p, p1, q);
  }

  /** Reading the Int batch and then the Byte batch of `ids` is reading
   *  `ids`. */
  lemma IdsFromBatches(ids: Ids, s: seq<byte>, p: nat, p1: nat, q: nat)
    requires ReadBatch(s, p, 3, Int) == Ok(Parsed(IdValues(ids), p1))
    requires ReadBatch(s, p1, 4, Byte) == Ok(Parsed(GradeValues(ids), q))
    ensures ReadIds(s, p) == Ok(Parsed(ids, q))
  {
  }

  lemma MetaRoundTrip(m: Meta, s: seq<byte>, p: nat, q: nat)
    requires Embeds(s, p, MetaBytes(m)) && q == p + |MetaBytes(m)|
    ensures ReadMeta(s, p) == Ok(Parsed(m, q))
  {
    KindsRoundTrip(MetaValues(m), MetaLayout, s, p, q);
  }

  lemma VisitsRoundTrip(w: Visits, s: seq<byte>, p: nat, q: nat)
    requires Embeds(s, p, VisitsBytes(w)) && q == p + |VisitsBytes(w)|
    ensures ReadVisits(s, p) == Ok(Parsed(w, q))
  {
    KindsRoundTrip(VisitsValues(w), VisitsLayout, s, p, q);
  }

  lemma TrailerRoundTrip(t: Trailer, s: seq<byte>, p: nat, q: nat)
    requires Embeds(s, p, TrailerBytes(t)) && q == p + |TrailerBytes(t)|
    ensures ReadTrailer(s, p) == Ok(Parsed(t, q))
  {
    var p1 := TrailerPieces(t, s, p, q);
    TrailerFrom(t, s, p, p1, q);
  }

  /** Where the trailer's flags, Int and Byte lie. */
  lemma TrailerPieces(t: Trailer, s: seq<byte>, p: nat, q: nat) returns (p1: nat)
    requires Embeds(s, p, TrailerBytes(t)) && q == p + |TrailerBytes(t)|
    ensures Embeds(s, p, EncodeMany(ValueBytes, FlagValues(t)))
    ensures p1 == p + |EncodeMany(ValueBytes, FlagValues(t))|
    ensures Embeds(s, p1, LittleEndianBytes(t.unknownModified, 4))
    ensures p1 + 4 < |s| && s[p1 + 4] == t.maniaScrollSpeed && q == p1 + 5
  {
    var e1 := EncodeMany(ValueBytes, FlagValues(t));
    var e2 := LittleEndianBytes(t.unknownModified, 4);
    p1 := p + |e1|;
    EmbedsSplit(s, p, e1 + e2, [t.maniaScrollSpeed]);
    EmbedsSplit(s, p, e1, e2);
    assert s[p1 + 4..p1 + 5] == [t.maniaScrollSpeed];
  }

  lemma TrailerFrom(t: Trailer, s: seq<byte>, p: nat, p1: nat, q: nat)
    requires Embeds(s, p, EncodeMany(ValueBytes, FlagValues(t)))
    requires p1 == p + |EncodeMany(ValueBytes, FlagValues(t))|
    requires Embeds(s, p1, LittleEndianBytes(t.unknownModified, 4))
    requires p1 + 4 < |s| && s[p1 + 4] == t.maniaScrollSpeed && q == p1 + 5
    ensures ReadTrailer(s, p) == Ok(Parsed(t, q))
  {
    FlagsRoundTrip(t, s, p, p1);
    Pow256Widths();
    UIntRoundTrip(t.unknownModified, 4, s, p1);
    TrailerFromParts(t, s, p, p1, p1 + 4, q);
  }

  lemma FlagsRoundTrip(t: Trailer, s: seq<byte>, p: nat, q: nat)
    requires Embeds(s, p, EncodeMany(ValueBytes, FlagValues(t)))
    requires q == p + |EncodeMany(ValueBytes, FlagValues(t))|
    ensures ReadBatch(s, p, 5, Boolean) == Ok(Parsed(FlagValues(t), q))
  {
    BatchRoundTrip(FlagValues(t), Boolean, s, p, q);
  }

  /** Five flags, an Int and a Byte, read in turn, are the trailer. */
  lemma TrailerFromParts(t: Trailer, s: seq<byte>, p: nat, p1: nat, p2: nat, q: nat)
    requires ReadBatch(s, p, 5, Boolean) == Ok(Parsed(FlagValues(t), p1))
    requires ReadInt(s, p1) == Ok(Parsed(t.unknownModified, p2))
    requires p2 < |s| && s[p2] == t.maniaScrollSpeed && q == p2 + 1
    ensures ReadTrailer(s, p) == Ok(Parsed(t, q))
  {
  }

  lemma HeaderRoundTrip(h: Header, s: seq<byte>, p: nat, q: nat)
    requires Embeds(s, p, HeaderBytes(h)) && q == p + |HeaderBytes(h)|
    ensures ReadHeader(s, p) == Ok(Parsed(h, q))
  {
    KindsRoundTrip(HeaderValues(h), HeaderLayout, s, p, q);
  }

  /** A whole record read back from its encoding: the blocks one after
   *  the other. */
  lemma BeatmapRoundTrip(b: Beatmap, s: seq<byte>, p: nat, q: nat)
    requires Embeds(s, p, BeatmapBytes(b)) && q == p + |BeatmapBytes(b)|
    ensures ReadBeatmap(s, p) == Ok(Parsed(b, q))
  {
    var p1, p2, p3, p4, p5, p6, p7, p8, p9 := BlocksRoundTrip(b, s, p, q);
    BeatmapFromBlocks(b, s, p, p1, p2, p3, p4, p5, p6, p7, p8, p9, q);
  }

  /** Each block of `b` read back where the previous one ended. */
  lemma BlocksRoundTrip(b: Beatmap, s: seq<byte>, p: nat, q: nat)
    returns (p1: nat, p2: nat, p3: nat, p4: nat, p5: nat, p6: nat, p7: nat, p8: nat, p9: nat)
    requires Embeds(s, p, BeatmapBytes(b)) && q == p + |BeatmapBytes(b)|
    ensures ReadNames(s, p) == Ok(Parsed(b.names, p1))
    ensures ReadCounts(s, p1) == Ok(Parsed(b.counts, p2))
    ensures ReadStats(s, p2) == Ok(Parsed(b.stats, p3))
    ensures ReadStars(s, p3) == Ok(Parsed(b.stars, p4))
    ensures ReadTimes(s, p4) == Ok(Parsed(b.times, p5))
    ensures ReadTimingPoints(s, p5) == Ok(Parsed(b.timing, p6))
    ensures ReadIds(s, p6) == Ok(Parsed(b.ids, p7))
    ensures ReadMeta(s, p7) == Ok(Parsed(b.meta, p8))
    ensures ReadVisits(s, p8) == Ok(Parsed(b.visits, p9))
    ensures ReadTrailer(s, p9) == Ok(Parsed(b.trailer, q))
  {
    var e1, e2, e3, e4, e5 := NamesBytes(b.names), CountsBytes(b.counts), StatsBytes(b.stats),
                              StarsBytes(b.stars), TimesBytes(b.times);
    var e6, e7, e8, e9, e10 := TimingBytes(b.timing), IdsBytes(b.ids), MetaBytes(b.meta),
                               VisitsBytes(b.visits), TrailerBytes(b.trailer);
    p1 := p + |e1|;
    p2 := p1 + |e2|;
    p3 := p2 + |e3|;
    p4 := p3 + |e4|;
    p5 := p4 + |e5|;
    p6 := p5 + |e6|;
    p7 := p6 + |e7|;
    p8 := p7 + |e8|;
    p9 := p8 + |e9|;
    EmbedsTen(s, p, p1, p2, p3, p4, p5, p6, p7, p8, p9, p9 + |e10|, e1, e2, e3, e4, e5, e6, e7, e8, e9, e10);
    NamesRoundTrip(b.names, s, p, p1);
    CountsRoundTrip(b.counts, s, p1, p2);
    StatsRoundTrip(b.stats, s, p2, p3);
    StarsRoundTrip(b.stars, s, p3, p4);
    TimesRoundTrip(b.times, s, p4, p5);
    TimingRoundTrip(b.timing, s, p5, p6);
    IdsRoundTrip(b.ids, s, p6, p7);
    MetaRoundTrip(b.meta, s, p7, p8);
    VisitsRoundTrip(b.visits, s, p8, p9);
    TrailerRoundTrip(b.trailer, s, p9, q);
  }

  /** The ten blocks of a record, each read where the previous one ended,
   *  make up the record. */
  lemma BeatmapFromBlocks(b: Beatmap, s: seq<byte>, p: nat, p1: nat, p2: nat, p3: nat, p4: nat, p5: nat,
                          p6: nat, p7: nat, p8: nat, p9: nat, q: nat)
    requires ReadNames(s, p) == Ok(Parsed(b.names, p1))
    requires ReadCounts(s, p1) == Ok(Parsed(b.counts, p2))
    requires ReadStats(s, p2) == Ok(Parsed(b.stats, p3))
    requires ReadStars(s, p3) == Ok(Parsed(b.stars, p4))
    requires ReadTimes(s, p4) == Ok(Parsed(b.times, p5))
    requires ReadTimingPoints(s, p5) == Ok(Parsed(b.timing, p6))
    requires ReadIds(s, p6) == Ok(Parsed(b.ids, p7))
    requires ReadMeta(s, p7) == Ok(Parsed(b.meta, p8))
    requires ReadVisits(s, p8) == Ok(Parsed(b.visits, p9))
    requires ReadTrailer(s, p9) == Ok(Parsed(b.trailer, q))
    ensures ReadBeatmap(s, p) == Ok(Parsed(b, q))
  {
  }

  /** The ten parts of a concatenation occur one after the other, at the
   *  positions p1, ..., p9, and the whole ends at p10. */
  lemma EmbedsTen(s: seq<byte>, p: nat, p1: nat, p2: nat, p3: nat, p4: nat, p5: nat, p6: nat, p7: nat, p8: nat,
                  p9: nat, p10: nat, e1: seq<byte>, e2: seq<byte>, e3: seq<byte>, e4: seq<byte>, e5: seq<byte>,
                  e6: seq<byte>, e7: seq<byte>, e8: seq<byte>, e9: seq<byte>, e10: seq<byte>)
    requires Embeds(s, p, e1 + e2 + e3 + e4 + e5 + e6 + e7 + e8 + e9 + e10)
    requires p1 == p + |e1| && p2 == p1 + |e2| && p3 == p2 + |e3| && p4 == p3 + |e4| && p5 == p4 + |e5|
    requires p6 == p5 + |e6| && p7 == p6 + |e7| && p8 == p7 + |e8| && p9 == p8 + |e9| && p10 == p9 + |e10|
    ensures Embeds(s, p, e1) && Embeds(s, p1, e2) && Embeds(s, p2, e3) && Embeds(s, p3, e4) && Embeds(s, p4, e5)
    ensures Embeds(s, p5, e6) && Embeds(s, p6, e7) && Embeds(s, p7, e8) && Embeds(s, p8, e9) && Embeds(s, p9, e10)
    ensures p10 == p + |e1 + e2 + e3 + e4 + e5 + e6 + e7 + e8 + e9 + e10|
  {
    EmbedsSplit(s, p, e1 + e2 + e3 + e4 + e5 + e6 + e7 + e8 + e9, e10);
    EmbedsSplit(s, p, e1 + e2 + e3 + e4 + e5 + e6 + e7 + e8, e9);
    EmbedsSplit(s, p, e1 + e2 + e3 + e4 + e5 + e6 + e7, e8);
    EmbedsSplit(s, p, e1 + e2 + e3 + e4 + e5 + e6, e7);
    EmbedsSplit(s, p, e1 + e2 + e3 + e4 + e5, e6);
    EmbedsSplit(s, p, e1 + e2 + e3 + e4, e5);
    EmbedsSplit(s, p, e1 + e2 + e3, e4);
    EmbedsSplit(s, p, e1 + e2, e3);
    EmbedsSplit(s, p, e1, e2);
  }

  // ---------------------------------------------------------------------
  // Sizes of the counted blocks

  /** A star table succeeds exactly when its count k and then 14 * k bytes
   *  are present; it then holds k pairs and consumes 4 + 14 * k bytes. */
  lemma StarTableWidth(s: seq<byte>, p: nat)
    ensures ReadStarTable(s, p).Ok? <==> ReadInt(s, p).Ok? && p + 4 + 14 * ReadInt(s, p).value.value <= |s|
    ensures ReadStarTable(s, p).Ok? ==>
      && |ReadStarTable(s, p).value.value| == ReadInt(s, p).value.value
      && ReadStarTable(s, p).value.next == p + 4 + 14 * ReadInt(s, p).value.value
  {
    ReadTypeWidth(s, p, Int);
    if ReadInt(s, p).Ok? {
      PairWidths(s);
      ReadManyFixedWidth(ReadIntDoublePair, 14, s, p + 4, ReadInt(s, p).value.value);
    }
  }

  /** The timing block succeeds exactly when its count k and then 17 * k
   *  bytes are present; it then holds k points and consumes 4 + 17 * k
   *  bytes. */
  lemma TimingWidth(s: seq<byte>, p: nat)
    ensures ReadTimingPoints(s, p).Ok? <==> ReadInt(s, p).Ok? && p + 4 + 17 * ReadInt(s, p).value.value <= |s|
    ensures ReadTimingPoints(s, p).Ok? ==>
      && |ReadTimingPoints(s, p).value.value| == ReadInt(s, p).value.value
      && ReadTimingPoints(s, p).value.next == p + 4 + 17 * ReadInt(s, p).value.value
  {
    ReadTypeWidth(s, p, Int);
    if ReadInt(s, p).Ok? {
      TimingPointWidths(s);
      ReadManyFixedWidth(ReadTimingPoint, 17, s, p + 4, ReadInt(s, p).value.value);
    }
  }

  // ---------------------------------------------------------------------
  // parse_beatmap and the whole file

  /** parse_beatmap succeeds exactly when the record can be read, and its
   *  Difficulty takes path, title, artist, mapper, difficulty name, the
   *  four stats, hash, both ids, the set id and the timing points from
   *  the record; api_beatmap_id is the beatmap id. */
  lemma ParseBeatmapFields(s: seq<byte>, p: nat)
    ensures ParseBeatmap(s, p).Ok? <==> ReadBeatmap(s, p).Ok?
    ensures ParseBeatmap(s, p).Ok? ==>
      var d := ParseBeatmap(s, p).value.value;
      var b := ReadBeatmap(s, p).value.value;
      && ParseBeatmap(s, p).value.next == ReadBeatmap(s, p).value.next
      && d.path == b.names.osuFile && d.name == b.names.title && d.artist == b.names.artist
      && d.mapper == b.names.creator && d.difficulty == b.names.difficulty
      && d.ar == b.stats.ar && d.cs == b.stats.cs && d.hp == b.stats.hp && d.od == b.stats.od
      && d.hash == b.names.md5 && d.timing == b.timing
      && d.apiBeatmapId == b.ids.beatmapId && d.beatmapId == b.ids.beatmapId
      && d.beatmapsetId == b.ids.beatmapsetId
  {
  }

  /** parse_beatmap is read_beatmap's record made a Difficulty. */
  lemma ParseIsMapped(s: seq<byte>)
    ensures ReadsMapped(ParseBeatmap, ToDifficulty, ReadBeatmap, s)
  {
    forall q: nat
      ensures ParseBeatmap(s, q) == MapParsed(ToDifficulty, ReadBeatmap(s, q))
    {
    }
  }

  /** BeatmapRoundTrip at every position. */
  lemma BeatmapReads(s: seq<byte>)
    ensures ReadsBack(ReadBeatmap, BeatmapBytes, s)
  {
    forall b: Beatmap, q: nat | Embeds(s, q, BeatmapBytes(b))
      ensures ReadBeatmap(s, q).Ok? && ReadBeatmap(s, q).value.value == b
      ensures ReadBeatmap(s, q).value.next == q + |BeatmapBytes(b)|
    {
      BeatmapRoundTrip(b, s, q, q + |BeatmapBytes(b)|);
    }
  }

  /** Successive records read back from their encodings. */
  lemma BeatmapsRoundTrip(bs: seq<Beatmap>, s: seq<byte>, p: nat, q: nat)
    requires Embeds(s, p, EncodeMany(BeatmapBytes, bs)) && q == p + |EncodeMany(BeatmapBytes, bs)|
    ensures ReadMany(ReadBeatmap, s, p, |bs|) == Ok(Parsed(bs, q))
  {
    BeatmapReads(s);
    ReadManyRoundTripTo(ReadBeatmap, BeatmapBytes, bs, s, p, q);
  }

  /** A whole file: the header, then its records. */
  function DbBytes(h: Header, bs: seq<Beatmap>): seq<byte>
  {
    HeaderBytes(h) + EncodeMany(BeatmapBytes, bs)
  }

  /** load_db's decoding half: a file holding a header that counts its
   *  records, then those records, then anything at all, decodes to the
   *  records' Difficulties in file order, whatever the version field. */
  lemma DbRoundTrip(h: Header, bs: seq<Beatmap>, rest: seq<byte>)
    requires h.numMaps as int == |bs|
    ensures ReadRecords(DbBytes(h, bs) + rest) == Ok(MapSeq(ToDifficulty, bs))
  {
    var s := DbBytes(h, bs) + rest;
    var e1, e2 := HeaderBytes(h), EncodeMany(BeatmapBytes, bs);
    var p1, p2 := |e1|, |e1| + |e2|;
    EmbedsFront(e1 + e2, rest);
    EmbedsSplit(s, 0, e1, e2);
    HeaderRoundTrip(h, s, 0, p1);
    BeatmapsRoundTrip(bs, s, p1, p2);
    RecordsFrom(s, h, p1, bs, p2);
  }

  /** The header, then num_maps records, make the file's Difficulties. */
  lemma RecordsFrom(s: seq<byte>, h: Header, q: nat, bs: seq<Beatmap>, r: nat)
    requires ReadHeader(s, 0) == Ok(Parsed(h, q))
    requires h.numMaps as int == |bs|
    requires ReadMany(ReadBeatmap, s, q, |bs|) == Ok(Parsed(bs, r))
    ensures ReadRecords(s) == Ok(MapSeq(ToDifficulty, bs))
  {
    ParseIsMapped(s);
    ReadManyMapped(ParseBeatmap, ToDifficulty, ReadBeatmap, s, q, |bs|);
  }

  /** Nothing can be read at the end of the input. */
  lemma ParseBeatmapAtEnd(s: seq<byte>)
    ensures ParseBeatmap(s, |s|) == Err(Truncated)
  {
    assert ReadString(s, |s|) == Err(Truncated);
  }

  /** The header's count is trusted: a file that ends right after a header
   *  announcing records fails rather than giving fewer of them. */
  lemma MissingRecords(h: Header)
    requires h.numMaps > 0
    ensures ReadRecords(HeaderBytes(h)) == Err(Truncated)
  {
    var s := HeaderBytes(h);
    assert s[0..|s|] == s;
    HeaderRoundTrip(h, s, 0, |s|);
    ParseBeatmapAtEnd(s);
  }
}
