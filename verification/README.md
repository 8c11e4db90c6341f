# playlist-app core in Dafny

This project models the core of playlist-app, a Kotlin console program that
keeps a playlist of songs and a list of artists in memory and stores them
through a serializer. The model covers four parts:

- **The song repository** (`SongAPI`). It is a class over a `seq<Song>` and offers:
  - index-addressed append, delete, update and archive;
  - bulk removal by equality;
  - lookups by index and by equality;
  - predicate counts: archived, active, by priority, stale and important;
  - a case-insensitive title search;
  - the data each `list*` operation hands to its table renderer;
  - load and store through a `Serializer`.
- **The artist repository** (`ArtistAPI`). It is the same kind of class for artists.
- **The validation registry and console input loop** (`ValidatorUtils`):
  - string validators;
  - the prompt, error and validator tables keyed by property name;
  - the string-to-value coercion;
  - the read-validate-retry loop `getValidPropertyValue`, proved against a specification function `Acquire`.
- **Seed data and the decode type check** (`SerializerUtils`). These are the two seed lists and `isArrayList`, which every codec applies to a decoded object.

Supporting modules:

- `Wrappers` holds `Option` and `Result`.
- `Models` holds the `Song` and `Artist` records and the listing data.
- `KotlinText` holds ASCII versions of `toIntOrNull`, `isBlank`, `lowercase` and `contains(ignoreCase = true)`.
- `Sequences` holds `count`, `filter`, `removeAll`, `removeAt` and `indexOf` on lists.
- `Persistence` holds a serializer whose file is a value of type `Document`. Reading refuses records of the other kind, as the typed decoders do, and then runs `isArrayList` on the document.

Kotlin `data class` equality is structural, so the records are immutable datatypes and an in-place field update becomes element replacement. Kotlin code (`null`, thrown exceptions) maps to Dafny as follows:

- `null` becomes `None`.
- A thrown exception becomes a `Failure`.
- `LocalDateTime.now()` becomes a `now` parameter.
- A `LocalDateTime` becomes whole seconds.
- `readlnOrNull()` becomes a sequence of optional lines followed by end of input.

## Model

| member | source | states |
|---|---|---|
| ValidatorUtils.StringIsValid | src/main/kotlin/utils/ValidatorUtils.kt:9 | accepts exactly the present strings with a non-whitespace character |
| ValidatorUtils.IntIsValid | src/main/kotlin/utils/ValidatorUtils.kt:12 | accepts exactly the present strings that `toIntOrNull` parses; the blank check adds nothing |
| ValidatorUtils.SongPriorityIsValid | src/main/kotlin/utils/ValidatorUtils.kt:15 | accepts exactly integer text whose value is in 1..5 |
| ValidatorUtils.YesNoIsValid | src/main/kotlin/utils/ValidatorUtils.kt:18 | accepts exactly non-empty text whose first character, lower-cased, is 'y' or 'n' |
| ValidatorUtils.LocalDateTimeIsValid | src/main/kotlin/utils/ValidatorUtils.kt:21-35 | accepts only present text that the date-time parser accepts |
| ValidatorUtils.StaleDaysIsValid | src/main/kotlin/utils/ValidatorUtils.kt:24 | accepts exactly integer text whose value is at least 0 |
| ValidatorUtils.ValidatorExamples | src/main/kotlin/utils/ValidatorUtils.kt:9-24 | fixes the documented cases: "", "   ", "a", "1.1", "0", "6", "-1" rejected; "Y", "n", "5" accepted |
| ValidatorUtils.Def | src/main/kotlin/utils/ValidatorUtils.kt:40 | an old value is shown as " (old)", a missing one as nothing |
| ValidatorUtils.PropertyNameToPrompt | src/main/kotlin/utils/ValidatorUtils.kt:43-55 | succeeds exactly for the eight prompt names; any other name throws IllegalArgumentException naming it |
| ValidatorUtils.StemPromptShowsOldValue | src/main/kotlin/utils/ValidatorUtils.kt:45-50 | a field prompt with an old value is the bare prompt with " (old)" inserted before its closing ": " |
| ValidatorUtils.PromptShowsOldValue | src/main/kotlin/utils/ValidatorUtils.kt:43-52 | every prompt ends in ": "; the six field prompts show the old value before it, the other two ignore it |
| ValidatorUtils.PropertyNameToError | src/main/kotlin/utils/ValidatorUtils.kt:58-71 | succeeds exactly for the nine error names; any other name throws IllegalArgumentException naming it |
| ValidatorUtils.PropertyNameToValidator | src/main/kotlin/utils/ValidatorUtils.kt:74-86 | succeeds exactly for the eight validator names; title and category share the non-blank check |
| ValidatorUtils.RegistryKeySetsDiffer | src/main/kotlin/utils/ValidatorUtils.kt:43-86 | "songIndex" has a prompt and an error but no validator; "yesNo" has an error and a validator but no prompt |
| ValidatorUtils.StringToGeneric | src/main/kotlin/utils/ValidatorUtils.kt:88-96 | a successful coercion has the requested type; Int succeeds exactly on valid integer text, with its value; accepted yes/no text becomes true iff it starts with 'y'; any other type throws |
| ValidatorUtils.ValueToString | src/main/kotlin/utils/ValidatorUtils.kt:113-114 | the `toString()` of an old value: a String is its own text, a 32-bit Int's text parses back to it, and a Boolean's text ("true" or "false") never passes `yesNoIsValid` |
| ValidatorUtils.ValidatorsMatchCoercions | src/main/kotlin/utils/ValidatorUtils.kt:74-96 | whatever a registered validator accepts, coercion to that name's type succeeds |
| ValidatorUtils.FirstAccepted | src/main/kotlin/utils/ValidatorUtils.kt:110-119 | the first read at or after a position whose line passes the validator, and that every read before it fails |
| ValidatorUtils.AcquireShape | src/main/kotlin/utils/ValidatorUtils.kt:98-122 | for every input, `Acquire` (the closed form of the loop) returns only values of the requested type, prints exactly one prompt or error per line read, and reads at most one line when there is an old value |
| ValidatorUtils.GetValidPropertyValue | src/main/kotlin/utils/ValidatorUtils.kt:98-122 | the outcome, printed lines and lines read equal `Acquire`: the first accepted line coerced, the error printed before each re-read, the old value's text substituted for a failing line |
| ValidatorUtils.BooleanOldValueDiverges | src/main/kotlin/utils/ValidatorUtils.kt:112-114 | with a Boolean old value and an invalid first line the loop never ends |
| ValidatorUtils.BooleanOldValueCounterexample | src/main/kotlin/utils/ValidatorUtils.kt:113-114 | editing the archived flag with old value false and no input at all never ends |
| ValidatorUtils.IntOldValueKept | src/main/kotlin/utils/ValidatorUtils.kt:113-114 | an Int old priority in 1..5 is returned when the first line is invalid |
| ValidatorUtils.AcquireKeepingOld | src/main/kotlin/utils/ValidatorUtils.kt:112-121 | with an old value the corrected loop always ends after at most one read, and returns a value other than the old one only when the first line was accepted |
| ValidatorUtils.KeepingOldAgreesWhenTextRoundTrips | src/main/kotlin/utils/ValidatorUtils.kt:112-121 | the corrected loop equals the one as written whenever the old value's text passes and coerces back to it |
| ValidatorUtils.BooleanOldValueKeptWhenCorrected | src/main/kotlin/utils/ValidatorUtils.kt:113-114 | the corrected loop returns the Boolean old value where the one as written diverges |
| KotlinText.ToIntOrNull | src/main/kotlin/utils/ValidatorUtils.kt:12 | a parsed value is a 32-bit Int and comes from non-blank text holding a digit |
| KotlinText.IsBlank | src/main/kotlin/utils/ValidatorUtils.kt:9 | the empty text is blank, and a blank non-empty text starts and ends with whitespace |
| KotlinText.IsNullOrBlank | src/main/kotlin/utils/ValidatorUtils.kt:9 | null is blank; present text is not blank exactly when it holds a non-whitespace character |
| KotlinText.IntToString | src/main/kotlin/utils/ValidatorUtils.kt:114 | at least one character, a leading '-' exactly for negatives, digits otherwise |
| KotlinText.IntToStringRoundTrip | src/main/kotlin/utils/ValidatorUtils.kt:113-114 | the decimal text of every 32-bit Int parses back to it |
| KotlinText.LowerAscii | src/main/kotlin/controllers/SongAPI.kt:233 | upper-case ASCII letters map 32 code points down, every other character to itself, and the result is never an upper-case letter |
| KotlinText.ContainsIgnoreCase | src/main/kotlin/controllers/SongAPI.kt:233 | a match needs a pattern no longer than the text, and every title contains itself |
| KotlinText.ContainsIgnoresPatternCase | src/main/kotlin/controllers/SongAPI.kt:233 | title search does not depend on the case of the search string |
| KotlinText.EmptyPatternMatches | src/main/kotlin/controllers/SongAPI.kt:233 | an empty search string matches every title |
| Sequences.RemoveAll | src/main/kotlin/controllers/SongAPI.kt:45 | keeps exactly the elements not in the set, each kept element from the input |
| Sequences.ToSet | src/main/kotlin/controllers/SongAPI.kt:45 | holds every element of the list and nothing else |
| Sequences.RemoveAllChanged | src/main/kotlin/controllers/SongAPI.kt:45 | the list shrinks iff some element is in the set, and is unchanged otherwise |
| Sequences.RemoveAllAppend | src/main/kotlin/controllers/SongAPI.kt:45 | removal distributes over concatenation, so the kept songs stay in their relative order |
| Sequences.FilterAppend | src/main/kotlin/controllers/SongAPI.kt:93-95 | filtering distributes over concatenation, so listed songs stay in list order |
| Sequences.Filter | src/main/kotlin/controllers/SongAPI.kt:93-135 | as many elements as `Count` gives, every kept element passes and is from the list, and every passing element is kept |
| Sequences.Count | src/main/kotlin/controllers/SongAPI.kt:142-172 | never more than the list size |
| Sequences.CountZero | src/main/kotlin/controllers/SongAPI.kt:142-172 | the count is zero exactly when no element passes |
| Sequences.RemoveAt | src/main/kotlin/controllers/SongAPI.kt:38 | one element fewer, earlier ones in place, later ones shifted down, the removed one the only one lost |
| Sequences.IndexOf | src/main/kotlin/controllers/SongAPI.kt:205 | the first index holding the element, or -1 exactly when it is absent |
| Sequences.CountComplement | src/main/kotlin/controllers/SongAPI.kt:142-149 | a predicate's count plus its negation's count is the list size |
| Sequences.CountMonotone | src/main/kotlin/controllers/SongAPI.kt:165 | counting a weaker predicate never gives less |
| Sequences.CountUpdate | src/main/kotlin/controllers/SongAPI.kt:68-71 | replacing one element changes a count only by the old and new element's contributions |
| SerializerUtils.IsArrayList | src/main/kotlin/utils/SerializerUtils.kt:32-37 | returns the object's own items iff it is a list whose every element has the target type; an empty list passes |
| SerializerUtils.IsArrayListRejectsNonLists | src/main/kotlin/utils/SerializerUtils.kt:32-37 | texts, numbers, booleans, single records and other objects give null |
| SerializerUtils.GetSeededSongs | src/main/kotlin/utils/SerializerUtils.kt:45-61 | eleven pairwise distinct songs, every priority in 1..5 |
| SerializerUtils.GetSeededArtists | src/main/kotlin/utils/SerializerUtils.kt:69-82 | eight artists, each with a non-empty genre list |
| Persistence.ReadSongsFrom | src/main/kotlin/persistence/JSONSerializer.kt:13-22 | a missing file, one the decoder cannot parse, and one holding an artist record each throw; any other decoded object that is not a song list reads as null |
| Persistence.ReadArtistsFrom | src/main/kotlin/persistence/JSONSerializer.kt:13-22 | the same for artist lists, with a song record refused |
| Persistence.Forbidden | src/main/kotlin/persistence/JSONSerializer.kt:16 | the refusal of `allowTypes(T)`: never for an untyped read, an empty list or an object `isArrayList` accepts; a refused list holds an element that is not a `T` |
| Persistence.SongsRoundTrip | src/main/kotlin/persistence/JSONSerializer.kt:24-37 | reading back a written song list gives the same songs in order, the empty list included |
| Persistence.ArtistsRoundTrip | src/main/kotlin/persistence/JSONSerializer.kt:24-43 | reading back a written artist list gives the same artists in order |
| Persistence.ArtistsReadAsSongs | src/main/kotlin/persistence/JSONSerializer.kt:13-22 | reading a non-empty artist file as songs throws; an empty one reads as an empty song list |
| Persistence.SongsReadAsArtists | src/main/kotlin/persistence/JSONSerializer.kt:13-22 | reading a non-empty song file as artists throws; an empty one reads as an empty artist list |
| Persistence.Serializer.constructor | src/main/kotlin/persistence/JSONSerializer.kt:12 | the serializer starts on the given file |
| Persistence.Serializer.WriteSongs | src/main/kotlin/persistence/Serializer.kt:7-8 | the file afterwards holds exactly the written list |
| Persistence.Serializer.ReadSongs | src/main/kotlin/persistence/Serializer.kt:10-11 | reading decodes the current file and leaves it unchanged |
| Persistence.Serializer.WriteArtists | src/main/kotlin/persistence/Serializer.kt:13-14 | the file afterwards holds exactly the written list |
| Persistence.Serializer.ReadArtists | src/main/kotlin/persistence/Serializer.kt:16-17 | reading decodes the current file and leaves it unchanged |
| SongAPI.Updated | src/main/kotlin/controllers/SongAPI.kt:54-60 | title, priority, category and archived flag come from the new data, updatedAt is the clock, createdAt is kept |
| SongAPI.Archived | src/main/kotlin/controllers/SongAPI.kt:68-71 | only the archived flag (set) and updatedAt (the clock) change |
| SongAPI.ArchivingCountsOnce | src/main/kotlin/controllers/SongAPI.kt:68-71 | archiving a song raises the archived count by one, or by nothing if it was archived |
| SongAPI.SortByUpdatedAt | src/main/kotlin/controllers/SongAPI.kt:126 | the result is ordered by updatedAt and holds the same songs |
| SongAPI.SortByUpdatedAtIsStable | src/main/kotlin/controllers/SongAPI.kt:126 | the sort is stable: for every timestamp, the songs updated at that time come out in their original relative order |
| SongAPI.SongAPI.constructor | src/main/kotlin/controllers/SongAPI.kt:17-21 | a new repository is empty and uses the given serializer |
| SongAPI.SongAPI.Add | src/main/kotlin/controllers/SongAPI.kt:29 | appends the song at the end and returns true |
| SongAPI.SongAPI.DeleteSong | src/main/kotlin/controllers/SongAPI.kt:37-38 | a valid index removes and returns that song and keeps the rest in order; any other index returns null and changes nothing |
| SongAPI.SongAPI.RemoveMultipleSongs | src/main/kotlin/controllers/SongAPI.kt:45 | every song equal to one in the list is dropped, the rest keep their order; true iff some song was dropped |
| SongAPI.SongAPI.UpdateSong | src/main/kotlin/controllers/SongAPI.kt:54-60 | true iff the index is valid; then only that song is replaced by its update, otherwise nothing changes |
| SongAPI.SongAPI.ArchiveSong | src/main/kotlin/controllers/SongAPI.kt:68-71 | true iff the index is valid; then only that song is archived, otherwise nothing changes |
| SongAPI.SongAPI.FindAll | src/main/kotlin/controllers/SongAPI.kt:78 | the current songs, in order |
| SongAPI.SongAPI.ListAllSongs | src/main/kotlin/controllers/SongAPI.kt:85-86 | all songs, or "No songs stored" exactly when there are none |
| SongAPI.SongAPI.ListActiveSongs | src/main/kotlin/controllers/SongAPI.kt:93-95 | the active songs in order, or the message exactly when there are none |
| SongAPI.SongAPI.ListArchivedSongs | src/main/kotlin/controllers/SongAPI.kt:103-105 | the archived songs in order, or the message exactly when there are none |
| SongAPI.SongAPI.ListSongsBySelectedPriority | src/main/kotlin/controllers/SongAPI.kt:113-116 | the songs of that priority in order, or the message exactly when there are none |
| SongAPI.SongAPI.ListStaleSongs | src/main/kotlin/controllers/SongAPI.kt:124-126 | the stale songs ordered by updatedAt, with songs of equal updatedAt in list order, as many as the stale count, or the message exactly when there are none |
| SongAPI.SongAPI.ListImportantSongs | src/main/kotlin/controllers/SongAPI.kt:133-135 | the priority-1 songs in order, or the message exactly when there are none |
| SongAPI.SongAPI.NumberOfArchivedSongs | src/main/kotlin/controllers/SongAPI.kt:142 | at most the song count, and zero exactly when no song is archived |
| SongAPI.SongAPI.NumberOfActiveSongs | src/main/kotlin/controllers/SongAPI.kt:149 | active plus archived is the song count |
| SongAPI.SongAPI.NumberOfSongsByPriority | src/main/kotlin/controllers/SongAPI.kt:157 | at most the song count, and zero exactly when no song has that priority |
| SongAPI.SongAPI.NumberOfStaleSongs | src/main/kotlin/controllers/SongAPI.kt:165 | at most the song count, and zero exactly when every song was updated at or after now minus the days |
| SongAPI.SongAPI.NumberOfImportantSongs | src/main/kotlin/controllers/SongAPI.kt:172 | at most the song count, and zero exactly when no song has priority 1 |
| SongAPI.SongAPI.NumberOfSongs | src/main/kotlin/controllers/SongAPI.kt:179 | the size of the list `findAll` returns |
| SongAPI.SongAPI.FindSong | src/main/kotlin/controllers/SongAPI.kt:187-189 | the song at the index exactly when the index is valid, otherwise null |
| SongAPI.SongAPI.FindUsingSong | src/main/kotlin/controllers/SongAPI.kt:197 | an equal song exactly when one is stored |
| SongAPI.SongAPI.FindIndexUsingSong | src/main/kotlin/controllers/SongAPI.kt:205 | -1 exactly when no equal song is stored, otherwise the first index holding one |
| SongAPI.SongAPI.IsValidIndex | src/main/kotlin/controllers/SongAPI.kt:214-222 | true exactly for 0 <= index < size |
| SongAPI.SongAPI.IsValidIndexText | src/main/kotlin/controllers/SongAPI.kt:224 | true exactly when the text is present, parses as an Int and that Int is a valid index |
| SongAPI.SongAPI.SearchByTitle | src/main/kotlin/controllers/SongAPI.kt:232-234 | exactly the songs whose title contains the search ignoring case, in list order, each paired with the first index holding an equal song |
| SongAPI.SongAPI.SeedSongs | src/main/kotlin/controllers/SongAPI.kt:275-277 | the list becomes exactly the seeded songs |
| SongAPI.SongAPI.Load | src/main/kotlin/controllers/SongAPI.kt:285-289 | a non-null read replaces the list and gives true; a null read gives false and keeps it; a throwing read propagates and keeps it |
| SongAPI.SongAPI.Store | src/main/kotlin/controllers/SongAPI.kt:296-297 | the serializer's file afterwards holds the current list unchanged |
| SongAPI.StaleCountMonotone | src/main/kotlin/controllers/SongAPI.kt:165 | with a fixed clock, more days never give more stale songs |
| SongAPI.AddedSongListedLast | src/main/kotlin/controllers/SongAPI.kt:93-95 | a song appended to the list appears last in every filtered listing it qualifies for, with the earlier rows unchanged |
| SongAPI.IsValidIndexTextRejects | src/main/kotlin/controllers/SongAPI.kt:224 | null, "", "a" and "1.5" are never valid index texts |
| SongAPI.IsValidIndexTextAccepts | src/main/kotlin/controllers/SongAPI.kt:224 | the decimal text of every valid index is a valid index text |
| SongAPI.StoreThenLoad | src/main/kotlin/controllers/SongAPI.kt:285-297 | songs added one by one, stored, then loaded by a fresh repository over the same file come back equal and in order, the empty list included |
| ArtistAPI.Replaced | src/main/kotlin/controllers/ArtistAPI.kt:46-50 | name, founding date and the whole genre list come from the new data, so the stored artist equals it |
| ArtistAPI.ArtistAPI.constructor | src/main/kotlin/controllers/ArtistAPI.kt:16-20 | a new repository is empty and uses the given serializer |
| ArtistAPI.ArtistAPI.Add | src/main/kotlin/controllers/ArtistAPI.kt:28 | appends the artist at the end and returns true |
| ArtistAPI.ArtistAPI.DeleteArtist | src/main/kotlin/controllers/ArtistAPI.kt:36-37 | a valid index removes and returns that artist and keeps the rest in order; any other index returns null and changes nothing |
| ArtistAPI.ArtistAPI.UpdateArtist | src/main/kotlin/controllers/ArtistAPI.kt:46-50 | true iff the index is valid; then only that artist is replaced, otherwise nothing changes |
| ArtistAPI.ArtistAPI.FindAll | src/main/kotlin/controllers/ArtistAPI.kt:57 | the current artists, in order |
| ArtistAPI.ArtistAPI.ListAllArtists | src/main/kotlin/controllers/ArtistAPI.kt:64-65 | all artists, or "No artists stored" exactly when there are none |
| ArtistAPI.ArtistAPI.NumberOfArtists | src/main/kotlin/controllers/ArtistAPI.kt:91 | the size of the list `findAll` returns |
| ArtistAPI.ArtistAPI.FindArtist | src/main/kotlin/controllers/ArtistAPI.kt:99-101 | the artist at the index exactly when the index is valid, otherwise null |
| ArtistAPI.ArtistAPI.FindUsingArtist | src/main/kotlin/controllers/ArtistAPI.kt:109 | an equal artist exactly when one is stored |
| ArtistAPI.ArtistAPI.FindIndexUsingArtist | src/main/kotlin/controllers/ArtistAPI.kt:117 | -1 exactly when no equal artist is stored, otherwise the first index holding one |
| ArtistAPI.ArtistAPI.IsValidIndex | src/main/kotlin/controllers/ArtistAPI.kt:126-134 | true exactly for 0 <= index < size |
| ArtistAPI.ArtistAPI.IsValidIndexText | src/main/kotlin/controllers/ArtistAPI.kt:136 | true exactly when the text is present, parses as an Int and that Int is a valid index |
| ArtistAPI.ArtistAPI.SeedArtists | src/main/kotlin/controllers/ArtistAPI.kt:175-177 | the list becomes exactly the seeded artists |
| ArtistAPI.ArtistAPI.LoadArtists | src/main/kotlin/controllers/ArtistAPI.kt:185-189 | a non-null read replaces the list and gives true; a null read gives false and keeps it; a throwing read propagates and keeps it |
| ArtistAPI.ArtistAPI.StoreArtists | src/main/kotlin/controllers/ArtistAPI.kt:196-197 | the serializer's file afterwards holds the current list unchanged |
| ArtistAPI.IsValidIndexTextRejects | src/main/kotlin/controllers/ArtistAPI.kt:136 | null, "", "a" and "1.5" are never valid index texts |
| ArtistAPI.IsValidIndexTextAccepts | src/main/kotlin/controllers/ArtistAPI.kt:136 | the decimal text of every valid index is a valid index text |
| ArtistAPI.StoreThenLoad | src/main/kotlin/controllers/ArtistAPI.kt:185-197 | artists added one by one, stored, then loaded by a fresh repository over the same file come back equal and in order, the empty list included |
| ArtistAPI.LoadArtistsFromSongFile | src/main/kotlin/controllers/ArtistAPI.kt:185-189 | loading a seeded repository from a non-empty song file throws and keeps the seeded artists; an empty song file loads and empties the repository |

## Left out

- XML, JSON and YAML codecs and file I/O. These are XStream, Jettison and Jackson calls. A serializer's file is a `Document`: absent, unparseable, or holding the decoded object. The typed decode (`allowTypes(T)`, `TypeReference<ArrayList<T?>>`) is modelled only as refusing a record of the other kind; other classes the decoders would refuse or accept are not modelled.
- `Serializer` is a Kotlin interface with three implementations. The model has one class, `Persistence.Serializer`, which behaves like a faithful codec.
- Method names. `Serializer.kt` declares `readSongs`/`writeSongs`, but `SongAPI.kt:287,297` calls `read()`/`write()`, which that interface does not declare. The model uses `ReadSongs`/`WriteSongs`.
- Aliasing. Records are immutable values. In Kotlin, `findSong` returns the live object and `findAll` makes only a shallow copy, so a caller can change a stored song through a returned reference. The model does not capture that.
- Rendering. The `generate*Table` operations, `UITables.kt` and the table text of every `list*` operation are not modelled; the model keeps the rows handed to the renderer. `searchByTitle`'s joined text (`index: toString()`) is modelled as the sequence of (index, song) pairs it prints.
- `LocalDateTime.parse` and `toString` are foreign calls. They come in as the `DateTimeText` parameter. `LocalDateTime.now()` comes in as a `now` parameter.
- Timestamps. They are whole seconds of a local date-time, and `minusDays` is exactly 86400 seconds per day. Sub-second precision is not modelled.
- Seeded timestamps. The seed lists use `Models.Ldp` on numbers instead of parsing ISO text with `ldp`. The seed lists are constant functions rather than lists built by successive `add` calls.
- ASCII only. `toIntOrNull`, `isBlank`, `lowercase` and `contains(ignoreCase = true)` cover ASCII text. Unicode digits, whitespace and case folding are not modelled.
- Int limits. Counts, sizes and indices are unbounded naturals. A list of more than 2^31 - 1 elements is not modelled.
- Console I/O. `print`/`println` output is returned as the sequence of printed strings. `readlnOrNull()` reads from a parameter sequence of lines.
- Non-termination. Where `getValidPropertyValue` would loop forever, the model reports `Diverges` instead. This happens when the old value's text fails the validator, or when input has ended and the validator rejects null.
- Out of scope: `Main.kt` (the interactive menu), logging, `generateSeededFiles` (file writes) and the `ldp` string parser.

## Findings

| source | as written | input that shows it | evidently intended | confidence | as-written member | corrected member |
|---|---|---|---|---|---|---|
| src/main/kotlin/utils/ValidatorUtils.kt:113-114 | an invalid line is replaced by the old value's `toString()`, which is validated again; a Boolean's text is "true" or "false", which `yesNoIsValid` (line 18) rejects, so the loop never ends | `getValidPropertyValue<Boolean>("isSongArchived", false)` with no input at all (end of input) | an invalid line while editing keeps the old value | not executed; Main.kt:39 passes a Boolean old value, but under an unregistered name that throws first | ValidatorUtils.BooleanOldValueCounterexample | ValidatorUtils.AcquireKeepingOld |
