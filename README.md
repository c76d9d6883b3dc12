# osu!.db decoder: a verified model

This project models the part of OsuStreamGen that reads the osu! client's
`osu!.db` beatmap cache and builds an in-memory catalog from it:

- the primitive codec of `db/fmt.py`:
  - little-endian integers;
  - ULEB128 lengths, both decoding and encoding;
  - the two-indicator string scheme;
  - Int-Double pairs and timing points;
  - `read_type` over its eleven kinds, and `read_batch`;
  - the writers `get_uleb128`, `get_string` and `get_int`;
- the record walker of `db/parser.py`:
  - the six-field header;
  - `parse_beatmap`, which reads every field of a chart record in the order the code reads them;
  - `load_db`, which reads `num_maps` records and groups them by beatmapset id into Songs;
- the catalog of `db/model.py`: `Difficulty`, `Song` and `Songs` with `add_song` and `get_song`.

The model has four layers:

- **`Fmt`** and **`Records`** give each decoder as a pure function over the
  whole input and a position. Each function returns `Ok(Parsed(value, next))` or
  an error: `Truncated` for a read past the end, `MalformedString` for a bad
  indicator. Each decoder has an encoder beside it, and a round-trip lemma
  proves that reading the encoding gives the value back and stops exactly at
  the end of the encoding. This goes from a single ULEB128 up to a whole file
  (`Records.DbRoundTrip`).
- **`Cursor.Reader`** is the file object. It is a class with the whole input
  as a constant and a mutable position. Each read method advances the
  position, and is proved to return what the decoder of the same name returns
  and to leave the position where that decoder stops.
- **`Parser`** is the code of `db/parser.py` as methods over a `Reader`:
  - each block of a record;
  - the loop over the records;
  - the two grouping loops of `load_db`.

  Each method is proved against the `Records` decoder for its block, and
  `LoadDb` against the grouping functions of `Assembly`.
- **`Assembly`** defines what `load_db` builds:
  - `SetIds`, the set ids in first-seen order;
  - `Members`, the records of one set;
  - `Group`, one Song per set id;
  - `Index`, the beatmap-id map in which the last write wins.

  Lemmas prove that the songs are a permutation of the records. They also
  prove that no song is empty, that set ids are distinct and in first-seen
  order, and which record each index key holds.

Strings are kept as their undecoded UTF-8 payload bytes. Single and Double
values are kept as their raw 4 and 8 bytes.

The record layout follows the code where the format notes in `db/parser.py` differ:

- The code reads the last-modified Long before the three object-count Shorts
  (`db/parser.py:99-103`). The format notes list the Shorts first.
- The version-dependent branches are described in the format notes
  (`db/parser.py:33-36`, `78`) but the code never implements them. The model
  always reads four Singles and no extra Short, as the code does.

## Model

| member | source | states |
|---|---|---|
| Fmt.ReadFixedWidth | db/fmt.py:169-226 | Int, Short, Long and DateTime consume their width and return the little-endian value of those bytes; Boolean consumes one byte and is false exactly for 0x00; each fails exactly when too few bytes remain |
| Fmt.LittleEndianRoundTrip | db/fmt.py:72-73 | the little-endian bytes of a value below 256^width, read back with int.from_bytes, give the value |
| Fmt.UIntRoundTrip | db/fmt.py:169-172 | a little-endian integer embedded anywhere in the input is read back and the read stops after its width |
| Fmt.ReadUInt | db/fmt.py:169-172 | an unsigned read of `width` bytes is below 256^width |
| Fmt.Uleb128Stops | db/fmt.py:54-65 | parse_uleb128 stops at the first byte with the high bit clear, every byte before it has the bit set, and it fails (Truncated) exactly when no such byte remains |
| Fmt.Uleb128BytesShape | db/fmt.py:92-104 | get_uleb128 is never empty, sets the high bit on every byte but the last, and encodes 0 as the single byte 00 |
| Fmt.GetUleb128 | db/fmt.py:92-104 | the loop of get_uleb128 produces exactly the ULEB128 encoding of its argument |
| Fmt.Uleb128RoundTrip | db/fmt.py:46-65 | decoding the encoding of n, wherever it occurs, gives n and consumes exactly the encoding |
| Fmt.Uleb128AcceptsOverlong | db/fmt.py:54-65 | an overlong encoding (80 00) is accepted and decodes to 0 |
| Fmt.ReadString | db/fmt.py:16-43 | a string read returns exactly the payload bytes it stops after, and consumes at least the indicator byte |
| Fmt.ReadStringIndicator | db/fmt.py:26-43 | indicator 0x00 gives the empty string; any indicator other than 0x00 and 0x0B is malformed; after 0x0B the payload starts right after the ULEB128 and is as long as its value, the read ends there, and it fails with Truncated exactly when the ULEB128 has no stop byte or fewer payload bytes remain |
| Fmt.StringRoundTrip | db/fmt.py:76-89 | a string written with a byte-count prefix is read back, empty or not, and the read stops after it |
| Fmt.GetStringRoundTrip | db/fmt.py:76-89 | get_string with the prefix counting payload bytes round-trips every text through parse_string, and writes the empty text as 00 |
| Fmt.GetStringAsWrittenRoundTrip | db/fmt.py:76-89 | get_string as written round-trips when the text has as many UTF-8 bytes as characters |
| Fmt.GetStringAsWrittenMismatch | db/fmt.py:85 | for "éa", get_string as written gives 0B 02 C3 A9 61; reading it back yields only the two payload bytes of "é" and leaves the 61 of "a" unread |
| Fmt.GetInt | db/fmt.py:72-73 | struct.pack("I") succeeds exactly for 0 .. 2^32-1 and gives four bytes |
| Fmt.GetIntRoundTrip | db/fmt.py:72-73 | get_int read back with read_type("Int") gives the integer |
| Fmt.IntDoublePairRoundTrip | db/fmt.py:200-211 | an Int-Double pair (tag, Int, tag, Double) is read back from its 14 bytes |
| Fmt.IntDoublePairIgnoresTags | db/fmt.py:201-207 | the two tag bytes of a pair are read but not checked: changing them changes nothing decoded |
| Fmt.TimingPointRoundTrip | db/fmt.py:212-222 | a timing point (Double, Double, Boolean) is read back from its 17 bytes |
| Fmt.ReadType | db/fmt.py:164-226 | read_type returns a value of the kind it was asked for |
| Fmt.ReadTypeWidth | db/fmt.py:169-226 | every kind except String consumes exactly its width, and fails with Truncated exactly when fewer bytes remain |
| Fmt.ValueRoundTrip | db/fmt.py:164-226 | a value of any kind, written with its encoder, is read back by read_type of its kind |
| Fmt.ReadMany | db/fmt.py:294-295 | n successful reads give exactly n items |
| Fmt.ReadManyFixedWidth | db/fmt.py:294-295 | n reads of a fixed width w succeed exactly when n * w bytes remain, and then consume exactly those |
| Fmt.ReadManyElements | db/fmt.py:294-295 | item i of n fixed-width reads is the read at p + i * w |
| Fmt.ReadManyRoundTrip | db/fmt.py:294-295 | n values written one after another are read back in order by n reads |
| Fmt.ReadManyMapped | db/parser.py:307 | n reads followed by a conversion are the n raw reads, each converted |
| Fmt.MapSeq | db/parser.py:307 | the converted list has the same length and holds the conversion of each item at the same place |
| Fmt.PairsRoundTrip | db/parser.py:144-147 | a list of Int-Double pairs is read back in order |
| Fmt.TimingPointsRoundTrip | db/parser.py:171-175 | a list of timing points is read back in order |
| Fmt.ReadBatchShape | db/fmt.py:294-295 | read_batch(cnt, kind) gives cnt values of that kind; for a fixed-width kind it succeeds exactly when cnt * width bytes remain, and value i is the read at p + i * width |
| Fmt.BatchRoundTrip | db/fmt.py:294-295 | cnt values of one kind written one after another are read back by read_batch |
| Fmt.ReadKindsShape | db/parser.py:99-103 | a fixed sequence of read_type calls gives values of exactly the requested kinds |
| Fmt.KindsRoundTrip | db/parser.py:99-103 | values of the requested kinds, written one after another, are read back by the sequence of read_type calls |
| Fmt.TruncatedReadsAsWritten | db/fmt.py:169-199 | as written, a Boolean read at the end of the input is true and an Int read from the single byte 2A is 42, where the strict reads fail with Truncated |
| Cursor.GroupStep | db/fmt.py:57-61 | adding one byte's low seven bits at `shift` keeps the accumulator below 2^(shift+7), so the source's bitwise OR acts as addition; on the last byte it completes the decoded value |
| Cursor.Reader.constructor | db/parser.py:287 | a new cursor is at offset 0 of the whole input |
| Cursor.Reader.ReadBytes | db/fmt.py:170 | fobj.read(n) returns the next n bytes and advances by n, or fails with Truncated when fewer remain |
| Cursor.Reader.ReadUInt | db/fmt.py:169-172 | returns and consumes what Fmt.ReadUInt decodes |
| Cursor.Reader.ReadByte | db/fmt.py:176-179 | returns and consumes what Fmt.ReadByte decodes |
| Cursor.Reader.ReadShort | db/fmt.py:180-183 | returns and consumes what Fmt.ReadShort decodes |
| Cursor.Reader.ReadInt | db/fmt.py:169-172 | returns and consumes what Fmt.ReadInt decodes |
| Cursor.Reader.ReadLong | db/fmt.py:184-187 | returns and consumes what Fmt.ReadLong decodes |
| Cursor.Reader.ReadDateTime | db/fmt.py:223-226 | returns and consumes what Fmt.ReadDateTime decodes |
| Cursor.Reader.ReadSingle | db/fmt.py:188-191 | returns and consumes the four bytes of a Single |
| Cursor.Reader.ReadDouble | db/fmt.py:192-195 | returns and consumes the eight bytes of a Double |
| Cursor.Reader.ReadBoolean | db/fmt.py:196-199 | returns and consumes what Fmt.ReadBoolean decodes |
| Cursor.Reader.ParseUleb128 | db/fmt.py:46-65 | the byte-at-a-time loop returns the ULEB128 value Fmt.Uleb128 decodes and stops after its last byte, or fails with Truncated when Fmt.Uleb128 does |
| Cursor.Reader.ReadString | db/fmt.py:16-43 | returns and consumes what Fmt.ReadString decodes, with the same error |
| Cursor.Reader.ReadIntDoublePair | db/fmt.py:200-211 | returns and consumes what Fmt.ReadIntDoublePair decodes |
| Cursor.Reader.ReadTimingPoint | db/fmt.py:212-222 | returns and consumes what Fmt.ReadTimingPoint decodes |
| Cursor.Reader.ReadType | db/fmt.py:164-226 | read_type dispatches on the kind and returns and consumes what Fmt.ReadType decodes |
| Cursor.Reader.ReadBatch | db/fmt.py:294-295 | the loop of cnt read_type calls returns and consumes what Fmt.ReadBatch decodes |
| Cursor.Reader.ReadKinds | db/parser.py:99-103 | a fixed sequence of read_type calls returns and consumes what Fmt.ReadKinds decodes |
| Model.FindInFirst | db/model.py:47-49 | the inner search answers the earliest difficulty with the hash, and answers nothing only when no difficulty has it |
| Model.FindFirstMatch | db/model.py:40-51 | get_song answers nothing exactly when no difficulty of any song has the hash; otherwise it answers the first match, song by song and difficulty by difficulty |
| Model.Songs.constructor | db/model.py:30-33 | a new catalog has no songs and an empty index |
| Model.Songs.AddSong | db/model.py:35-38 | add_song appends the song, even an empty one, and leaves the index alone |
| Model.Songs.GetSong | db/model.py:40-51 | the nested loops answer Find over the current songs, whose meaning Model.FindFirstMatch gives |
| Records.NamesRoundTrip | db/parser.py:90-98 | the nine strings at the head of a record are read back |
| Records.CountsRoundTrip | db/parser.py:99-103 | ranked status, last-modified Long and the three object counts are read back, in the code's order |
| Records.StatsRoundTrip | db/parser.py:129-134 | AR, CS, HP, OD (four Singles) and the slider velocity are read back |
| Records.StarTableRoundTrip | db/parser.py:144-147 | a star table (Int count k, then k pairs) is read back |
| Records.StarTableWidth | db/parser.py:144-147 | a star table succeeds exactly when its count and 14 * count further bytes are present, and then consumes exactly those |
| Records.StarsRoundTrip | db/parser.py:149 | the four star tables are read back in order |
| Records.TimesRoundTrip | db/parser.py:159-161 | drain, total and preview times are read back |
| Records.TimingRoundTrip | db/parser.py:171-175 | the timing-point block (Int count k, then k points) is read back |
| Records.TimingWidth | db/parser.py:171-175 | the timing block succeeds exactly when its count and 17 * count further bytes are present, and then consumes exactly those |
| Records.IdsRoundTrip | db/parser.py:180-186 | the three ids and the four grades, read as two batches, are read back |
| Records.MetaRoundTrip | db/parser.py:187-192 | offset, stack leniency, mode, source, tags and online offset are read back |
| Records.VisitsRoundTrip | db/parser.py:193-198 | font, unplayed, last played, osz2 flag, folder and last checked are read back |
| Records.TrailerRoundTrip | db/parser.py:199-245 | the five flags, the unknown Int and the scroll-speed Byte are read back |
| Records.HeaderRoundTrip | db/parser.py:293-298 | version, folder count, unlocked flag, unlock time, player name and map count are read back |
| Records.BeatmapRoundTrip | db/parser.py:89-245 | a whole chart record is read back, block after block, and the read stops after its last byte |
| Records.BeatmapsRoundTrip | db/parser.py:307 | records written one after another are read back in order |
| Records.ParseBeatmapFields | db/parser.py:254-269 | parse_beatmap succeeds exactly when the record reads; the Difficulty takes path from the .osu file name, name from the title, the hash from the MD5 string, api_beatmap_id and beatmap_id both from the beatmap id, and the rest from the matching field |
| Records.DbRoundTrip | db/parser.py:293-307 | a file made of a header counting its records and those records, with anything after them, decodes to the records' Difficulties in order |
| Records.ParseBeatmapAtEnd | db/parser.py:90 | no record can be read at the end of the input |
| Records.MissingRecords | db/parser.py:298-307 | the header's count is trusted: a header announcing records that are absent is Truncated |
| Assembly.SetIdsDistinct | db/parser.py:310-313 | the mapsets dict has no set id twice |
| Assembly.SetIdsCover | db/parser.py:311-313 | a set id is a key of mapsets exactly when some record has it |
| Assembly.SetIdsFirstSeen | db/parser.py:313-316 | keys are in first-seen order: the earlier key occurs in the records before the later one first occurs |
| Assembly.SetIdsPrefix | db/parser.py:313 | a key keeps its place as more records arrive |
| Assembly.MembersExact | db/parser.py:313 | a set's list holds exactly the records with that set id, each as often as it occurs |
| Assembly.MembersNonEmpty | db/parser.py:313 | every key's list is non-empty |
| Assembly.MembersAbsent | db/parser.py:313 | a set id not yet seen has no records |
| Assembly.SongsOf | db/parser.py:316-319 | one Song per key |
| Assembly.GroupSongs | db/parser.py:316-319 | Song i holds the records of the i-th key, and no Song is empty (the empty-song warning never fires) |
| Assembly.GroupPermutation | db/parser.py:309-319 | every record lands in exactly one Song: the songs' difficulties together are a permutation of the records |
| Assembly.GroupEmpty | db/parser.py:309-319 | there are no songs, and the index is empty, exactly when there are no records |
| Assembly.IndexKeys | db/parser.py:312 | bid_mapping has a key for exactly the records' beatmap ids |
| Assembly.IndexLast | db/parser.py:312 | a beatmap id maps to the last record with that id |
| Parser.ParseStrings | db/parser.py:90-98 | n string reads return and consume what n Fmt.ReadString reads decode |
| Parser.ParseNames | db/parser.py:90-98 | returns and consumes what Records.ReadNames decodes |
| Parser.ParseCounts | db/parser.py:99-103 | returns and consumes what Records.ReadCounts decodes |
| Parser.ParseStats | db/parser.py:129-134 | returns and consumes what Records.ReadStats decodes |
| Parser.ParsePairs | db/parser.py:146 | the list comprehension of pairs returns and consumes what n Fmt.ReadIntDoublePair reads decode |
| Parser.ParseStarTable | db/parser.py:144-147 | read_SR returns and consumes what Records.ReadStarTable decodes |
| Parser.ParseStarTables | db/parser.py:149 | n read_SR calls return and consume what n Records.ReadStarTable reads decode |
| Parser.ParseStars | db/parser.py:149 | returns and consumes what Records.ReadStars decodes |
| Parser.ParseTimes | db/parser.py:159-161 | returns and consumes what Records.ReadTimes decodes |
| Parser.ParseTimingPointList | db/parser.py:173-175 | the list comprehension of timing points returns and consumes what n Fmt.ReadTimingPoint reads decode |
| Parser.ParseTimingPoints | db/parser.py:171-175 | returns and consumes what Records.ReadTimingPoints decodes |
| Parser.ParseIds | db/parser.py:180-186 | returns and consumes what Records.ReadIds decodes |
| Parser.ParseMeta | db/parser.py:187-192 | returns and consumes what Records.ReadMeta decodes |
| Parser.ParseVisits | db/parser.py:193-198 | returns and consumes what Records.ReadVisits decodes |
| Parser.ParseTrailer | db/parser.py:199-245 | returns and consumes what Records.ReadTrailer decodes |
| Parser.ParseBeatmap | db/parser.py:83-281 | parse_beatmap returns and consumes what Records.ParseBeatmap decodes, with the same error |
| Parser.ParseHeader | db/parser.py:293-298 | returns and consumes what Records.ReadHeader decodes |
| Parser.ParseRecords | db/parser.py:307 | num_maps parse_beatmap calls return and consume what n Records.ParseBeatmap reads decode |
| Parser.Assemble | db/parser.py:309-319 | the two grouping loops leave songs equal to Group of the records and bid_mapping equal to Index of the records |
| Parser.LoadDb | db/parser.py:284-321 | load_db gives a catalog exactly when the file decodes, otherwise the decoder's error; the catalog's songs are Group, and its index is Index, of the decoded records |

## Left out

- Opening the file by path (`db/parser.py:287`) and the file object itself: the input is a byte sequence given to `Parser.LoadDb`, and the file is never closed in the source.
- Logging, including the empty-song warning of `add_song` and the warning for an unknown kind: no state depends on it.
- The unknown-kind branch of `read_type` (`db/fmt.py:227-228`), which returns None: `Fmt.Kind` is the closed set of the eleven kinds the code handles.
- UTF-8 decoding of string payloads, and its error: strings are kept as payload bytes, so a payload that is not valid UTF-8 decodes successfully in the model.
- The interpretation of Single and Double values as IEEE 754 floats: they are kept as raw 4- and 8-byte patterns. `struct.pack("I")` and `struct.unpack` are assumed to use little-endian byte order, the native order of the platforms the client runs on.
- `print_as_bits`, `Songs.__repr__` and `Songs.__str__` (`db/model.py:53-57`): formatting only.
- The version-dependent branches of the format notes: the code never implements them.
- Cursor.Reader: after a failed read the methods promise only that the position stays within the input, not where it is. The source's file position after an exception is likewise unspecified.
- Fmt.GetUleb128: takes a natural number; the source's loop on a negative integer never ends.
- Cursor.Reader.ParseUleb128: the `|=` of the source is modelled as `+`. Cursor.GroupStep proves the two agree, because each group lands above the bits already set.
- Fields of a record that `Difficulty` does not keep are decoded and then dropped, as in the source. Their values are not checked.
- Fmt.ReadBytes: a short read is an error (Truncated). In the source, `fobj.read` returns fewer bytes, and Int, Short, Long, DateTime and Boolean then decode them silently. `read_type("Byte")` at the end of the input returns `b""`, and a Timingpoint with exactly 16 bytes left gets `uninherited` true from the empty final read. A string payload can likewise come back short. The Findings below model the integer and Boolean cases.
- Fmt.ReadByte: `read_type("Byte")` returns a one-byte `bytes` object. The model returns the byte value itself.
- The grouping of record fields into blocks (`Records.Meta`, `Records.Visits`, and the others) exists only in the model. Field order and kinds follow the code.

## Findings

| source | as written | input that shows it | evidently intended | confidence | as-written member | corrected member |
|---|---|---|---|---|---|---|
| db/fmt.py:169-199 | `fobj.read(n)` returns fewer bytes at the end of the input. `int.from_bytes` decodes them and `bs != b"\x00"` is true for an empty read, so a truncated Int or Boolean is not an error | a Boolean read at the end of the input gives true; an Int read from the single remaining byte 2A gives 42 | a read past the end is a truncation error | not executed | Fmt.TruncatedReadsAsWritten | Fmt.ReadTypeWidth |
| db/fmt.py:85 | the ULEB128 prefix of `get_string` is `len(string)`, the number of characters, not the number of UTF-8 bytes that follow | "éa" is written 0B 02 C3 A9 61; parse_string reads two payload bytes, returns "é" without error and leaves the byte 61 unread | the prefix counts payload bytes, so that every string round-trips through parse_string | not executed | Fmt.GetStringAsWrittenMismatch | Fmt.GetStringRoundTrip |
