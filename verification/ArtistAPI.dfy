/**
 * controllers/ArtistAPI.kt: the in-memory artist repository, the song
 * repository's counterpart without counts, archiving or search.
 */
module ArtistAPI {
  import opened Wrappers
  import opened Models
  import opened KotlinText
  import opened Sequences
  import opened SerializerUtils
  import opened Persistence

  /**
   * The record after `updateArtist`: name, founding date and the whole genre
   * list come from `from`, so the stored artist equals it.
   */
  function Replaced(current: Artist, from: Artist): (r: Artist)
    ensures r.name == from.name && r.foundedDate == from.foundedDate && r.genres == from.genres
    ensures r == from
  {
    current.(name := from.name, foundedDate := from.foundedDate, genres := from.genres)
  }

  const NoArtistsMessage := "No artists stored"

  class ArtistAPI {
    const serializer: Serializer
    var artists: seq<Artist>

    constructor(serializerType: Serializer)
      ensures serializer == serializerType && artists == []
    {
      serializer := serializerType;
      artists := [];
    }

    /** `add`: appends at the end and reports success. */
    method Add(artist: Artist) returns (r: bool)
      modifies this
      ensures r && artists == old(artists) + [artist]
    {
      artists := artists + [artist];
      r := true;
    }

    /** `deleteArtist`: removes and returns the artist at a valid index; otherwise null and no change. */
    method DeleteArtist(indexToDelete: int) returns (r: Option<Artist>)
      modifies this
      ensures 0 <= indexToDelete < |old(artists)| ==>
                r == Some(old(artists)[indexToDelete]) && artists == RemoveAt(old(artists), indexToDelete)
      ensures !(0 <= indexToDelete < |old(artists)|) ==> r == None && artists == old(artists)
    {
      if IsValidIndex(indexToDelete) {
        r := Some(artists[indexToDelete]);
        artists := RemoveAt(artists, indexToDelete);
      } else {
        r := None;
      }
    }

    /** `updateArtist`: rewrites the record at a valid index; false and no change otherwise. */
    method UpdateArtist(indexToUpdate: int, artist: Artist) returns (r: bool)
      modifies this
      ensures r <==> 0 <= indexToUpdate < |old(artists)|
      ensures r ==> artists == old(artists)[indexToUpdate := Replaced(old(artists)[indexToUpdate], artist)]
      ensures !r ==> artists == old(artists)
    {
      match FindArtist(indexToUpdate)
      case Some(current) =>
        artists := artists[indexToUpdate := Replaced(current, artist)];
        r := true;
      case None =>
        r := false;
    }

    /** `findAll`: a copy of the contents, in order. */
    function FindAll(): (r: seq<Artist>)
      reads this
      ensures |r| == |artists| && forall i | 0 <= i < |r| :: r[i] == artists[i]
    {
      artists
    }

    function NumberOfArtists(): (r: nat)
      reads this
      ensures r == |FindAll()|
    {
      |artists|
    }

    /** `listAllArtists`. */
    function ListAllArtists(): (r: Listing<Artist>)
      reads this
      ensures r.Rows? <==> NumberOfArtists() > 0
      ensures r.Rows? ==> r.rows == FindAll()
      ensures r.NothingStored? ==> r.message == NoArtistsMessage
    {
      if artists == [] then NothingStored(NoArtistsMessage) else Rows(artists)
    }

    /** `isValidIndex(Int)`: an index into the current list. */
    predicate IsValidIndex(index: int)
      reads this
      ensures IsValidIndex(index) <==> 0 <= index < NumberOfArtists()
    {
      0 <= index < |artists|
    }

    /** `isValidIndex(String?)`: the blank test is subsumed by the integer parse. */
    predicate IsValidIndexText(index: Option<string>)
      reads this
      ensures IsValidIndexText(index) <==>
                index.Some? && ToIntOrNull(index.value).Some? && IsValidIndex(ToIntOrNull(index.value).value)
    {
      !IsNullOrBlank(index) && ToIntOrNull(index.value).Some? && IsValidIndex(ToIntOrNull(index.value).value)
    }

    /** `findArtist`: the artist at a valid index, null otherwise. */
    function FindArtist(index: int): (r: Option<Artist>)
      reads this
      ensures r.Some? <==> IsValidIndex(index)
      ensures r.Some? ==> r.value == artists[index]
    {
      if IsValidIndex(index) then Some(artists[index]) else None
    }

    /** `findUsingArtist`: an equal artist when one is stored. */
    function FindUsingArtist(artist: Artist): (r: Option<Artist>)
      reads this
      ensures r.Some? <==> artist in artists
      ensures r.Some? ==> r.value == artist
    {
      var k := IndexOf(artists, artist);
      if k >= 0 then Some(artists[k]) else None
    }

    /** `findIndexUsingArtist`: the first index holding an equal artist, or -1. */
    function FindIndexUsingArtist(artist: Artist): (r: int)
      reads this
      ensures r == -1 <==> FindUsingArtist(artist).None?
      ensures r != -1 ==> FindArtist(r) == Some(artist) && artist !in artists[..r]
    {
      IndexOf(artists, artist)
    }

    /** `seedArtists`: the seeded list replaces whatever was there. */
    method SeedArtists()
      modifies this
      ensures artists == GetSeededArtists()
    {
      artists := GetSeededArtists();
    }

    /**
     * `loadArtists`: a non-null read replaces the list and gives true; null
     * gives false and keeps the list; a read that throws propagates.
     */
    method LoadArtists() returns (r: Result<bool, ReadError>)
      modifies this
      ensures match ReadArtistsFrom(serializer.document)
              case Failure(e) => r == Failure(e) && artists == old(artists)
              case Success(None) => r == Success(false) && artists == old(artists)
              case Success(Some(loaded)) => r == Success(true) && artists == loaded
    {
      var read := serializer.ReadArtists();
      match read
      case Failure(e) =>
        r := Failure(e);
      case Success(None) =>
        r := Success(false);
      case Success(Some(loaded)) =>
        artists := loaded;
        r := Success(true);
    }

    /** `storeArtists`: hands the current list, unchanged, to the serializer. */
    method StoreArtists()
      modifies serializer
      ensures serializer.document == Holds(ArtistsToObj(artists))
    {
      serializer.WriteArtists(artists);
    }
  }

  /** `isValidIndex(String?)` rejects null, "", "a" and "1.5" whatever the list holds. */
  lemma IsValidIndexTextRejects(api: ArtistAPI)
    ensures !api.IsValidIndexText(None) && !api.IsValidIndexText(Some(""))
    ensures !api.IsValidIndexText(Some("a")) && !api.IsValidIndexText(Some("1.5"))
  {
    assert !IsDigit("1.5"[1]);
  }

  /** The decimal text of every valid index is a valid index text. */
  lemma IsValidIndexTextAccepts(api: ArtistAPI, index: int)
    requires api.IsValidIndex(index) && index <= MaxInt
    ensures api.IsValidIndexText(Some(IntToString(index)))
  {
    IntToStringRoundTrip(index);
  }

  /**
   * Store-then-load through one file: the artists come back in the same
   * order, the empty list included.
   */
  method StoreThenLoad(xs: seq<Artist>) returns (loaded: seq<Artist>)
    ensures loaded == xs
  {
    var file := new Serializer(Absent);
    var writer := new ArtistAPI(file);
    var i := 0;
    while i < |xs|
      invariant 0 <= i <= |xs|
      invariant writer.artists == xs[..i]
    {
      var added := writer.Add(xs[i]);
      assert xs[..i + 1] == xs[..i] + [xs[i]];
      i := i + 1;
    }
    assert xs[..|xs|] == xs;
    writer.StoreArtists();
    var reader := new ArtistAPI(file);
    ArtistsRoundTrip(xs);
    var ok := reader.LoadArtists();
    loaded := reader.FindAll();
  }

  /**
   * Loading a seeded artist repository from a file of songs: the read throws
   * and the seeded artists stay, unless the song list was empty, in which
   * case the load succeeds and the repository empties.
   */
  method LoadArtistsFromSongFile(songs: seq<Song>) returns (r: Result<bool, ReadError>, after: seq<Artist>)
    ensures songs == [] ==> r == Success(true) && after == []
    ensures songs != [] ==> r == Failure(ForbiddenClass) && after == GetSeededArtists()
  {
    var file := new Serializer(Holds(SongsToObj(songs)));
    var api := new ArtistAPI(file);
    api.SeedArtists();
    SongsReadAsArtists(songs);
    r := api.LoadArtists();
    after := api.FindAll();
  }
}
