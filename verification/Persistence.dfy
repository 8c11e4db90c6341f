/**
 * persistence/Serializer.kt: the interface the repositories store through.
 * The codecs behind it are replaced by one faithful serializer whose file
 * holds the decoded object the last write produced; reading runs the same
 * `isArrayList` check every codec applies.
 */
module Persistence {
  import opened Wrappers
  import opened Models
  import opened SerializerUtils

  /** What the serializer's file holds. */
  datatype Document =
    | Absent            // no file yet
    | Unreadable        // a file the decoder rejects
    | Holds(content: Obj)

  /** The exceptions a read may throw. */
  datatype ReadError =
    | FileNotFound      // the file does not exist
    | Malformed         // the decoder cannot parse the file
    | ForbiddenClass    // the decoder meets a record of a type it was not told to allow

  /** A record of the other kind than the one being read. */
  predicate IsOtherRecord(o: Obj, t: ElementType) {
    match t
    case SongType => o.ArtistObj?
    case ArtistType => o.SongObj?
    case AnyType => false
  }

  /**
   * The typed decode (`allowTypes(T)` for XStream, `TypeReference<ArrayList<T?>>`
   * for Jackson) refuses a record of the other kind, alone or as a list
   * element, before `isArrayList` is reached.
   */
  predicate Forbidden(obj: Obj, t: ElementType): (r: bool)
    ensures t == AnyType || obj == ListObj([]) ==> !r
    ensures IsArrayList(obj, t).Some? ==> !r
    ensures obj.ListObj? && r ==> exists i | 0 <= i < |obj.items| :: !IsInstance(obj.items[i], t)
  {
    IsOtherRecord(obj, t) || (obj.ListObj? && exists i | 0 <= i < |obj.items| :: IsOtherRecord(obj.items[i], t))
  }

  /** The object a write of a song list leaves in the file. */
  function SongsToObj(songs: seq<Song>): (o: Obj)
    ensures o.ListObj? && |o.items| == |songs|
    ensures forall i | 0 <= i < |songs| :: o.items[i] == SongObj(songs[i])
  {
    ListObj(seq(|songs|, i requires 0 <= i < |songs| => SongObj(songs[i])))
  }

  /** The object a write of an artist list leaves in the file. */
  function ArtistsToObj(artists: seq<Artist>): (o: Obj)
    ensures o.ListObj? && |o.items| == |artists|
    ensures forall i | 0 <= i < |artists| :: o.items[i] == ArtistObj(artists[i])
  {
    ListObj(seq(|artists|, i requires 0 <= i < |artists| => ArtistObj(artists[i])))
  }

  /** The unchecked cast `obj as ArrayList<Song>` once every element is a song. */
  function AsSongs(items: seq<Obj>): (r: seq<Song>)
    requires forall i | 0 <= i < |items| :: items[i].SongObj?
    ensures |r| == |items| && forall i | 0 <= i < |items| :: items[i] == SongObj(r[i])
  {
    seq(|items|, i requires 0 <= i < |items| => items[i].song)
  }

  /** The unchecked cast `obj as ArrayList<Artist>` once every element is an artist. */
  function AsArtists(items: seq<Obj>): (r: seq<Artist>)
    requires forall i | 0 <= i < |items| :: items[i].ArtistObj?
    ensures |r| == |items| && forall i | 0 <= i < |items| :: items[i] == ArtistObj(r[i])
  {
    seq(|items|, i requires 0 <= i < |items| => items[i].artist)
  }

  /** `readSongs()` on a file: throws, returns null, or returns the list. */
  function ReadSongsFrom(d: Document): (r: Result<Option<seq<Song>>, ReadError>)
    ensures d.Absent? <==> r == Failure(FileNotFound)
    ensures d.Unreadable? <==> r == Failure(Malformed)
    ensures r == Failure(ForbiddenClass) <==> d.Holds? && Forbidden(d.content, SongType)
    ensures r == Success(None) <==> d.Holds? && !Forbidden(d.content, SongType) && IsArrayList(d.content, SongType).None?
  {
    match d
    case Absent => Failure(FileNotFound)
    case Unreadable => Failure(Malformed)
    case Holds(obj) =>
      if Forbidden(obj, SongType) then Failure(ForbiddenClass)
      else match IsArrayList(obj, SongType)
      case None => Success(None)
      case Some(items) => Success(Some(AsSongs(items)))
  }

  /** `readArtists()` on a file. */
  function ReadArtistsFrom(d: Document): (r: Result<Option<seq<Artist>>, ReadError>)
    ensures d.Absent? <==> r == Failure(FileNotFound)
    ensures d.Unreadable? <==> r == Failure(Malformed)
    ensures r == Failure(ForbiddenClass) <==> d.Holds? && Forbidden(d.content, ArtistType)
    ensures r == Success(None) <==> d.Holds? && !Forbidden(d.content, ArtistType) && IsArrayList(d.content, ArtistType).None?
  {
    match d
    case Absent => Failure(FileNotFound)
    case Unreadable => Failure(Malformed)
    case Holds(obj) =>
      if Forbidden(obj, ArtistType) then Failure(ForbiddenClass)
      else match IsArrayList(obj, ArtistType)
      case None => Success(None)
      case Some(items) => Success(Some(AsArtists(items)))
  }

  /** Reading back what was written gives the same songs, in order, the empty list included. */
  lemma SongsRoundTrip(songs: seq<Song>)
    ensures ReadSongsFrom(Holds(SongsToObj(songs))) == Success(Some(songs))
  {
    var items := SongsToObj(songs).items;
    assert IsArrayList(SongsToObj(songs), SongType) == Some(items);
    assert AsSongs(items) == songs;
  }

  /** Reading back what was written gives the same artists, in order. */
  lemma ArtistsRoundTrip(artists: seq<Artist>)
    ensures ReadArtistsFrom(Holds(ArtistsToObj(artists))) == Success(Some(artists))
  {
    var items := ArtistsToObj(artists).items;
    assert IsArrayList(ArtistsToObj(artists), ArtistType) == Some(items);
    assert AsArtists(items) == artists;
  }

  /**
   * A file of artists read as songs: the decoder refuses the artist records,
   * except that an empty artist list holds none and reads as an empty song
   * list, since the element check is vacuous.
   */
  lemma ArtistsReadAsSongs(artists: seq<Artist>)
    ensures ReadSongsFrom(Holds(ArtistsToObj(artists))) ==
            if artists == [] then Success(Some([])) else Failure(ForbiddenClass)
  {
    if artists != [] {
      assert IsOtherRecord(ArtistsToObj(artists).items[0], SongType);
    }
  }

  /** The same the other way round: a file of songs read as artists. */
  lemma SongsReadAsArtists(songs: seq<Song>)
    ensures ReadArtistsFrom(Holds(SongsToObj(songs))) ==
            if songs == [] then Success(Some([])) else Failure(ForbiddenClass)
  {
    if songs != [] {
      assert IsOtherRecord(SongsToObj(songs).items[0], ArtistType);
    }
  }

  /** The `Serializer` a repository is built with; `document` stands for its file. */
  class Serializer {
    var document: Document

    constructor(file: Document)
      ensures document == file
    {
      document := file;
    }

    /** `writeSongs(obj)`: the file now holds the list, whatever it held before. */
    method WriteSongs(obj: seq<Song>)
      modifies this
      ensures document == Holds(SongsToObj(obj))
    {
      document := Holds(SongsToObj(obj));
    }

    /** `readSongs()`: reading leaves the file as it is. */
    method ReadSongs() returns (r: Result<Option<seq<Song>>, ReadError>)
      ensures r == ReadSongsFrom(document)
    {
      r := ReadSongsFrom(document);
    }

    /** `writeArtists(obj)`. */
    method WriteArtists(obj: seq<Artist>)
      modifies this
      ensures document == Holds(ArtistsToObj(obj))
    {
      document := Holds(ArtistsToObj(obj));
    }

    /** `readArtists()`. */
    method ReadArtists() returns (r: Result<Option<seq<Artist>>, ReadError>)
      ensures r == ReadArtistsFrom(document)
    {
      r := ReadArtistsFrom(document);
    }
  }
}
