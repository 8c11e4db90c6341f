/**
 * controllers/SongAPI.kt: the in-memory song repository. It owns one
 * ordered list, changed in place by index-addressed operations, and
 * stores it through a `Serializer`.
 */
module SongAPI {
  import opened Wrappers
  import opened Models
  import opened KotlinText
  import opened Sequences
  import opened SerializerUtils
  import opened Persistence

  // ------------------------------------------------------------ predicates

  predicate IsArchived(s: Song) { s.isArchived }
  predicate IsActive(s: Song) { !s.isArchived }
  function HasPriority(priority: int): Song -> bool { (s: Song) => s.priority == priority }
  function UpdatedBefore(cutoff: Timestamp): Song -> bool { (s: Song) => s.updatedAt < cutoff }
  function UpdatedAt(t: Timestamp): Song -> bool { (s: Song) => s.updatedAt == t }
  function TitleContains(searchString: string): Song -> bool { (s: Song) => ContainsIgnoreCase(s.title, searchString) }

  /** `now.minusDays(days)`. */
  function StaleCutoff(days: int, now: Timestamp): Timestamp { now - days * SecondsPerDay }

  // ------------------------------------------------------- record updates

  /**
   * The record after `updateSong`: title, priority, category and archived
   * flag come from `from`, `updatedAt` is the clock, `createdAt` is kept.
   */
  function Updated(current: Song, from: Song, now: Timestamp): (r: Song)
    ensures r.title == from.title && r.priority == from.priority
    ensures r.category == from.category && r.isArchived == from.isArchived
    ensures r.updatedAt == now && r.createdAt == current.createdAt
  {
    current.(title := from.title, priority := from.priority, category := from.category,
             isArchived := from.isArchived, updatedAt := now)
  }

  /** The record after `archiveSong`: archived and touched, nothing else changes. */
  function Archived(current: Song, now: Timestamp): (r: Song)
    ensures r.isArchived && r.updatedAt == now
    ensures r.title == current.title && r.priority == current.priority
    ensures r.category == current.category && r.createdAt == current.createdAt
  {
    current.(isArchived := true, updatedAt := now)
  }

  /** Archiving one song adds one to the archived count, unless it was archived already. */
  lemma ArchivingCountsOnce(s: seq<Song>, i: nat, now: Timestamp)
    requires i < |s|
    ensures Count(s[i := Archived(s[i], now)], IsArchived) == Count(s, IsArchived) + (if s[i].isArchived then 0 else 1)
  {
    CountUpdate(s, i, Archived(s[i], now), IsArchived);
  }

  // ---------------------------------------------------- stale-list order

  predicate SortedByUpdatedAt(s: seq<Song>) {
    forall i, j | 0 <= i < j < |s| :: s[i].updatedAt <= s[j].updatedAt
  }

  predicate NoneBefore(bound: Timestamp, s: seq<Song>) {
    forall k | 0 <= k < |s| :: bound <= s[k].updatedAt
  }

  /** A bound every old element and the new one respect holds for their rearrangement too. */
  lemma NoneBeforeKept(bound: Timestamp, x: Song, s: seq<Song>, r: seq<Song>)
    requires NoneBefore(bound, s) && bound <= x.updatedAt
    requires multiset(r) == multiset(s) + multiset{x}
    ensures NoneBefore(bound, r)
  {
    forall k | 0 <= k < |r|
      ensures bound <= r[k].updatedAt
    {
      assert r[k] in multiset(r);
      assert r[k] == x || r[k] in s;
    }
  }

  lemma SortedCons(head: Song, rest: seq<Song>)
    requires SortedByUpdatedAt(rest) && NoneBefore(head.updatedAt, rest)
    ensures SortedByUpdatedAt([head] + rest)
  {
    var r := [head] + rest;
    forall i, j | 0 <= i < j < |r|
      ensures r[i].updatedAt <= r[j].updatedAt
    {
      if i > 0 {
        assert r[i] == rest[i - 1] && r[j] == rest[j - 1];
      }
    }
  }

  function InsertByUpdatedAt(x: Song, s: seq<Song>): (r: seq<Song>)
    requires SortedByUpdatedAt(s)
    ensures SortedByUpdatedAt(r)
    ensures multiset(r) == multiset(s) + multiset{x}
  {
    if s == [] || x.updatedAt <= s[0].updatedAt then [x] + s
    else
      var rest := InsertByUpdatedAt(x, s[1..]);
      assert s == [s[0]] + s[1..];
      NoneBeforeKept(s[0].updatedAt, x, s[1..], rest);
      SortedCons(s[0], rest);
      [s[0]] + rest
  }

  /** `sortedBy { it.updatedAt }`: oldest first, the same songs. */
  function SortByUpdatedAt(s: seq<Song>): (r: seq<Song>)
    ensures SortedByUpdatedAt(r)
    ensures multiset(r) == multiset(s)
  {
    if s == [] then []
    else
      assert s == [s[0]] + s[1..];
      InsertByUpdatedAt(s[0], SortByUpdatedAt(s[1..]))
  }

  /**
   * Inserting keeps, among the songs updated at any one time, their order,
   * with the inserted song before the equal ones already there.
   */
  lemma {:induction false} InsertKeepsEqualOrder(x: Song, s: seq<Song>, t: Timestamp)
    requires SortedByUpdatedAt(s)
    ensures Filter(InsertByUpdatedAt(x, s), UpdatedAt(t)) == Filter([x] + s, UpdatedAt(t))
    decreases |s|
  {
    if s != [] && s[0].updatedAt < x.updatedAt {
      var p := UpdatedAt(t);
      var rest := s[1..];
      assert s == [s[0]] + rest;
      assert SortedByUpdatedAt(rest);
      InsertKeepsEqualOrder(x, rest, t);
      var inserted := InsertByUpdatedAt(x, rest);
      calc {
        Filter(InsertByUpdatedAt(x, s), p);
        Filter([s[0]] + inserted, p);
        { FilterCons(s[0], inserted, p); FilterCons(s[0], [x] + rest, p); }
        Filter([s[0]] + ([x] + rest), p);
        { FilterSwap(s[0], x, rest, p); }
        Filter([x] + s, p);
      }
    }
  }

  /**
   * `sortedBy` is stable: the songs updated at any one time keep their
   * relative order. With `SortedByUpdatedAt` this fixes the result.
   */
  lemma {:induction false} SortByUpdatedAtIsStable(s: seq<Song>, t: Timestamp)
    ensures Filter(SortByUpdatedAt(s), UpdatedAt(t)) == Filter(s, UpdatedAt(t))
  {
    if s != [] {
      var rest := s[1..];
      assert s == [s[0]] + rest;
      SortByUpdatedAtIsStable(rest, t);
      InsertKeepsEqualOrder(s[0], SortByUpdatedAt(rest), t);
      FilterCons(s[0], SortByUpdatedAt(rest), UpdatedAt(t));
      FilterCons(s[0], rest, UpdatedAt(t));
    }
  }

  /** Each hit paired with the first index in `all` holding an equal song. */
  function WithIndices(all: seq<Song>, hits: seq<Song>): (r: seq<(int, Song)>)
    ensures |r| == |hits|
    ensures forall k | 0 <= k < |r| :: r[k] == (IndexOf(all, hits[k]), hits[k])
    ensures forall x | x in hits :: (IndexOf(all, x), x) in r
  {
    var r := seq(|hits|, k requires 0 <= k < |hits| => (IndexOf(all, hits[k]), hits[k]));
    assert forall x | x in hits :: exists k | 0 <= k < |hits| :: hits[k] == x && r[k] == (IndexOf(all, x), x);
    r
  }

  const NoSongsMessage := "No songs stored"
  const NoActiveMessage := "No active songs stored"
  const NoArchivedMessage := "No archived songs stored"
  const NoPriorityMessage := "No songs with priority"
  const NoStaleMessage := "No stale songs stored"
  const NoImportantMessage := "No important songs stored"

  // ------------------------------------------------------------ repository

  class SongAPI {
    const serializer: Serializer
    var songs: seq<Song>

    constructor(serializerType: Serializer)
      ensures serializer == serializerType && songs == []
    {
      serializer := serializerType;
      songs := [];
    }

    /** `add`: appends at the end and reports success. */
    method Add(song: Song) returns (r: bool)
      modifies this
      ensures r && songs == old(songs) + [song]
    {
      songs := songs + [song];
      r := true;
    }

    /** `deleteSong`: removes and returns the song at a valid index; otherwise null and no change. */
    method DeleteSong(indexToDelete: int) returns (r: Option<Song>)
      modifies this
      ensures 0 <= indexToDelete < |old(songs)| ==>
                r == Some(old(songs)[indexToDelete]) && songs == RemoveAt(old(songs), indexToDelete)
      ensures !(0 <= indexToDelete < |old(songs)|) ==> r == None && songs == old(songs)
    {
      if IsValidIndex(indexToDelete) {
        r := Some(songs[indexToDelete]);
        songs := RemoveAt(songs, indexToDelete);
      } else {
        r := None;
      }
    }

    /**
     * `removeMultipleSongs`: drops every song equal to one in `songList`,
     * wherever it stands; true exactly when something was dropped.
     */
    method RemoveMultipleSongs(songList: seq<Song>) returns (r: bool)
      modifies this
      ensures songs == RemoveAll(old(songs), ToSet(songList))
      ensures r <==> exists i | 0 <= i < |old(songs)| :: old(songs)[i] in songList
    {
      var before := songs;
      songs := RemoveAll(songs, ToSet(songList));
      RemoveAllChanged(before, ToSet(songList));
      r := |songs| < |before|;
    }

    /** `updateSong`: rewrites the record at a valid index; false and no change otherwise. */
    method UpdateSong(indexToUpdate: int, song: Song, now: Timestamp) returns (r: bool)
      modifies this
      ensures r <==> 0 <= indexToUpdate < |old(songs)|
      ensures r ==> songs == old(songs)[indexToUpdate := Updated(old(songs)[indexToUpdate], song, now)]
      ensures !r ==> songs == old(songs)
    {
      match FindSong(indexToUpdate)
      case Some(current) =>
        songs := songs[indexToUpdate := Updated(current, song, now)];
        r := true;
      case None =>
        r := false;
    }

    /** `archiveSong`: archives the record at a valid index; false and no change otherwise. */
    method ArchiveSong(indexToUpdate: int, now: Timestamp) returns (r: bool)
      modifies this
      ensures r <==> 0 <= indexToUpdate < |old(songs)|
      ensures r ==> songs == old(songs)[indexToUpdate := Archived(old(songs)[indexToUpdate], now)]
      ensures !r ==> songs == old(songs)
    {
      match FindSong(indexToUpdate)
      case Some(current) =>
        songs := songs[indexToUpdate := Archived(current, now)];
        r := true;
      case None =>
        r := false;
    }

    /** `findAll`: a copy of the contents, in order. */
    function FindAll(): (r: seq<Song>)
      reads this
      ensures |r| == |songs| && forall i | 0 <= i < |r| :: r[i] == songs[i]
    {
      songs
    }

    function NumberOfSongs(): (r: nat)
      reads this
      ensures r == |FindAll()|
    {
      |songs|
    }

    /** `numberOfArchivedSongs`: zero exactly when no song is archived. */
    function NumberOfArchivedSongs(): (r: nat)
      reads this
      ensures r <= NumberOfSongs()
      ensures r == 0 <==> forall i | 0 <= i < |songs| :: !songs[i].isArchived
    {
      CountZero(songs, IsArchived);
      Count(songs, IsArchived)
    }

    /** `numberOfActiveSongs`: the songs that are not archived. */
    function NumberOfActiveSongs(): (r: nat)
      reads this
      ensures r + NumberOfArchivedSongs() == NumberOfSongs()
    {
      CountComplement(songs, IsArchived, IsActive);
      Count(songs, IsActive)
    }

    /** `numberOfSongsByPriority`: zero exactly when no song has that priority. */
    function NumberOfSongsByPriority(priority: int): (r: nat)
      reads this
      ensures r <= NumberOfSongs()
      ensures r == 0 <==> forall i | 0 <= i < |songs| :: songs[i].priority != priority
    {
      CountZero(songs, HasPriority(priority));
      Count(songs, HasPriority(priority))
    }

    /** `numberOfStaleSongs`: songs last updated strictly before `days` days ago. */
    function NumberOfStaleSongs(days: int, now: Timestamp): (r: nat)
      reads this
      ensures r <= NumberOfSongs()
      ensures r == 0 <==> forall i | 0 <= i < |songs| :: songs[i].updatedAt >= StaleCutoff(days, now)
    {
      CountZero(songs, UpdatedBefore(StaleCutoff(days, now)));
      Count(songs, UpdatedBefore(StaleCutoff(days, now)))
    }

    /** `numberOfImportantSongs`: the songs of priority 1. */
    function NumberOfImportantSongs(): (r: nat)
      reads this
      ensures r <= NumberOfSongs()
      ensures r == 0 <==> forall i | 0 <= i < |songs| :: songs[i].priority != 1
    {
      CountZero(songs, HasPriority(1));
      Count(songs, HasPriority(1))
    }

    /** `isValidIndex(Int)`: an index into the current list. */
    predicate IsValidIndex(index: int)
      reads this
      ensures IsValidIndex(index) <==> 0 <= index < NumberOfSongs()
    {
      0 <= index < |songs|
    }

    /** `isValidIndex(String?)`: the blank test is subsumed by the integer parse. */
    predicate IsValidIndexText(index: Option<string>)
      reads this
      ensures IsValidIndexText(index) <==>
                index.Some? && ToIntOrNull(index.value).Some? && IsValidIndex(ToIntOrNull(index.value).value)
    {
      !IsNullOrBlank(index) && ToIntOrNull(index.value).Some? && IsValidIndex(ToIntOrNull(index.value).value)
    }

    /** `findSong`: the song at a valid index, null otherwise. */
    function FindSong(index: int): (r: Option<Song>)
      reads this
      ensures r.Some? <==> IsValidIndex(index)
      ensures r.Some? ==> r.value == songs[index]
    {
      if IsValidIndex(index) then Some(songs[index]) else None
    }

    /** `findUsingSong`: an equal song when one is stored. */
    function FindUsingSong(song: Song): (r: Option<Song>)
      reads this
      ensures r.Some? <==> song in songs
      ensures r.Some? ==> r.value == song
    {
      var k := IndexOf(songs, song);
      if k >= 0 then Some(songs[k]) else None
    }

    /** `findIndexUsingSong`: the first index holding an equal song, or -1. */
    function FindIndexUsingSong(song: Song): (r: int)
      reads this
      ensures r == -1 <==> FindUsingSong(song).None?
      ensures r != -1 ==> FindSong(r) == Some(song) && song !in songs[..r]
    {
      IndexOf(songs, song)
    }

    /**
     * `searchByTitle`: each song whose title contains the search string,
     * ignoring case, in list order, paired with the first index holding an
     * equal song (so equal songs are all reported at the first one's index).
     */
    function SearchByTitle(searchString: string): (r: seq<(int, Song)>)
      reads this
      ensures |r| == Count(songs, TitleContains(searchString))
      ensures forall k | 0 <= k < |r| :: r[k].1 == Filter(songs, TitleContains(searchString))[k]
      ensures forall k | 0 <= k < |r| ::
                r[k].0 == FindIndexUsingSong(r[k].1) && 0 <= r[k].0 < |songs| &&
                ContainsIgnoreCase(r[k].1.title, searchString)
      ensures forall i | 0 <= i < |songs| :: ContainsIgnoreCase(songs[i].title, searchString) ==>
                (FindIndexUsingSong(songs[i]), songs[i]) in r
    {
      var hits := Filter(songs, TitleContains(searchString));
      assert forall i | 0 <= i < |songs| :: ContainsIgnoreCase(songs[i].title, searchString) ==> songs[i] in hits;
      WithIndices(songs, hits)
    }

    // ------------------------------------------------------------ listings

    /** `listAllSongs`. */
    function ListAllSongs(): (r: Listing<Song>)
      reads this
      ensures r.Rows? <==> NumberOfSongs() > 0
      ensures r.Rows? ==> r.rows == FindAll()
      ensures r.NothingStored? ==> r.message == NoSongsMessage
    {
      if songs == [] then NothingStored(NoSongsMessage) else Rows(songs)
    }

    /** `listActiveSongs`. */
    function ListActiveSongs(): (r: Listing<Song>)
      reads this
      ensures r.Rows? <==> NumberOfActiveSongs() > 0
      ensures r.Rows? ==> |r.rows| == NumberOfActiveSongs() && r.rows == Filter(songs, IsActive)
      ensures r.NothingStored? ==> r.message == NoActiveMessage
    {
      if songs == [] || NumberOfActiveSongs() == 0 then NothingStored(NoActiveMessage)
      else Rows(Filter(songs, IsActive))
    }

    /** `listArchivedSongs`. */
    function ListArchivedSongs(): (r: Listing<Song>)
      reads this
      ensures r.Rows? <==> NumberOfArchivedSongs() > 0
      ensures r.Rows? ==> |r.rows| == NumberOfArchivedSongs() && r.rows == Filter(songs, IsArchived)
      ensures r.NothingStored? ==> r.message == NoArchivedMessage
    {
      if songs == [] || NumberOfArchivedSongs() == 0 then NothingStored(NoArchivedMessage)
      else Rows(Filter(songs, IsArchived))
    }

    /** `listSongsBySelectedPriority`. */
    function ListSongsBySelectedPriority(priority: int): (r: Listing<Song>)
      reads this
      ensures r.Rows? <==> NumberOfSongsByPriority(priority) > 0
      ensures r.Rows? ==> |r.rows| == NumberOfSongsByPriority(priority) && r.rows == Filter(songs, HasPriority(priority))
      ensures r.NothingStored? ==> r.message == NoPriorityMessage
    {
      if songs == [] || NumberOfSongsByPriority(priority) == 0 then NothingStored(NoPriorityMessage)
      else Rows(Filter(songs, HasPriority(priority)))
    }

    /** `listStaleSongs`: the stale songs, oldest update first. */
    function ListStaleSongs(days: int, now: Timestamp): (r: Listing<Song>)
      reads this
      ensures r.Rows? <==> NumberOfStaleSongs(days, now) > 0
      ensures r.Rows? ==> SortedByUpdatedAt(r.rows)
      ensures r.Rows? ==> multiset(r.rows) == multiset(Filter(songs, UpdatedBefore(StaleCutoff(days, now))))
      ensures r.Rows? ==> |r.rows| == NumberOfStaleSongs(days, now)
      ensures r.Rows? ==> forall t :: Filter(r.rows, UpdatedAt(t)) == Filter(Filter(songs, UpdatedBefore(StaleCutoff(days, now))), UpdatedAt(t))
      ensures r.NothingStored? ==> r.message == NoStaleMessage
    {
      if songs == [] || NumberOfStaleSongs(days, now) == 0 then NothingStored(NoStaleMessage)
      else
        var stale := Filter(songs, UpdatedBefore(StaleCutoff(days, now)));
        var rows := SortByUpdatedAt(stale);
        assert |rows| == |multiset(rows)|;
        assert forall t :: Filter(rows, UpdatedAt(t)) == Filter(stale, UpdatedAt(t)) by {
          forall t { SortByUpdatedAtIsStable(stale, t); }
        }
        Rows(rows)
    }

    /** `listImportantSongs`. */
    function ListImportantSongs(): (r: Listing<Song>)
      reads this
      ensures r.Rows? <==> NumberOfImportantSongs() > 0
      ensures r.Rows? ==> |r.rows| == NumberOfImportantSongs() && r.rows == Filter(songs, HasPriority(1))
      ensures r.NothingStored? ==> r.message == NoImportantMessage
    {
      if songs == [] || NumberOfImportantSongs() == 0 then NothingStored(NoImportantMessage)
      else Rows(Filter(songs, HasPriority(1)))
    }

    // --------------------------------------------------------- persistence

    /** `seedSongs`: the seeded list replaces whatever was there. */
    method SeedSongs()
      modifies this
      ensures songs == GetSeededSongs()
    {
      songs := GetSeededSongs();
    }

    /**
     * `load`: a non-null read replaces the list and gives true; null gives
     * false and keeps the list; a read that throws propagates.
     */
    method Load() returns (r: Result<bool, ReadError>)
      modifies this
      ensures match ReadSongsFrom(serializer.document)
              case Failure(e) => r == Failure(e) && songs == old(songs)
              case Success(None) => r == Success(false) && songs == old(songs)
              case Success(Some(loaded)) => r == Success(true) && songs == loaded
    {
      var read := serializer.ReadSongs();
      match read
      case Failure(e) =>
        r := Failure(e);
      case Success(None) =>
        r := Success(false);
      case Success(Some(loaded)) =>
        songs := loaded;
        r := Success(true);
    }

    /** `store`: hands the current list, unchanged, to the serializer. */
    method Store()
      modifies serializer
      ensures serializer.document == Holds(SongsToObj(songs))
    {
      serializer.WriteSongs(songs);
    }
  }

  /**
   * A song added to the repository shows up last in every filtered listing
   * it qualifies for, and the earlier rows stay as they were.
   */
  lemma AddedSongListedLast(s: seq<Song>, x: Song, p: Song -> bool)
    ensures Filter(s + [x], p) == Filter(s, p) + (if p(x) then [x] else [])
  {
    FilterAppend(s, [x], p);
    assert [x][..0] == [];
  }

  /** A larger day count never reports more stale songs. */
  lemma StaleCountMonotone(api: SongAPI, fewerDays: int, moreDays: int, now: Timestamp)
    requires fewerDays <= moreDays
    ensures api.NumberOfStaleSongs(moreDays, now) <= api.NumberOfStaleSongs(fewerDays, now)
  {
    var p := UpdatedBefore(StaleCutoff(moreDays, now));
    var q := UpdatedBefore(StaleCutoff(fewerDays, now));
    assert StaleCutoff(moreDays, now) <= StaleCutoff(fewerDays, now);
    CountMonotone(api.songs, p, q);
  }

  /** `isValidIndex(String?)` rejects null, "", "a" and "1.5" whatever the list holds. */
  lemma IsValidIndexTextRejects(api: SongAPI)
    ensures !api.IsValidIndexText(None) && !api.IsValidIndexText(Some(""))
    ensures !api.IsValidIndexText(Some("a")) && !api.IsValidIndexText(Some("1.5"))
  {
    assert !IsDigit("1.5"[1]);
  }

  /** The decimal text of every valid index is a valid index text. */
  lemma IsValidIndexTextAccepts(api: SongAPI, index: int)
    requires api.IsValidIndex(index) && index <= MaxInt
    ensures api.IsValidIndexText(Some(IntToString(index)))
  {
    IntToStringRoundTrip(index);
  }

  /**
   * Store-then-load through one file: a repository filled song by song and
   * stored, then a fresh repository over the same file loaded, holds the
   * same songs in the same order, the empty list included.
   */
  method StoreThenLoad(xs: seq<Song>) returns (loaded: seq<Song>)
    ensures loaded == xs
  {
    var file := new Serializer(Absent);
    var writer := new SongAPI(file);
    var i := 0;
    while i < |xs|
      invariant 0 <= i <= |xs|
      invariant writer.songs == xs[..i]
    {
      var added := writer.Add(xs[i]);
      assert xs[..i + 1] == xs[..i] + [xs[i]];
      i := i + 1;
    }
    assert xs[..|xs|] == xs;
    writer.Store();
    var reader := new SongAPI(file);
    SongsRoundTrip(xs);
    var ok := reader.Load();
    loaded := reader.FindAll();
  }
}
