/**
 * utils/SerializerUtils.kt: the type check every codec applies to a decoded
 * object (`isArrayList`) and the two literal seed lists.
 */
module SerializerUtils {
  import opened Wrappers
  import opened Models

  /** A decoded object as the JVM sees it: a list, a record, or some other value. */
  datatype Obj =
    | ListObj(items: seq<Obj>)
    | SongObj(song: Song)
    | ArtistObj(artist: Artist)
    | TextObj(text: string)
    | IntObj(number: int)
    | RealObj(fraction: real)
    | BoolObj(flag: bool)
    | NullObj
    | OtherObj      // any other object, such as a repository instance

  /** The reified type argument `T` of `isArrayList<T>`. */
  datatype ElementType = SongType | ArtistType | AnyType

  /** `it is T`; `null` is an instance of no type. */
  predicate IsInstance(o: Obj, t: ElementType) {
    match t
    case SongType => o.SongObj?
    case ArtistType => o.ArtistObj?
    case AnyType => !o.NullObj?
  }

  /**
   * `isArrayList<T>(obj)`: the object itself when it is a list whose every
   * element is a `T`, otherwise null. An empty list passes.
   */
  function IsArrayList(obj: Obj, t: ElementType): (r: Option<seq<Obj>>)
    ensures r.Some? <==> obj.ListObj? && forall i | 0 <= i < |obj.items| :: IsInstance(obj.items[i], t)
    ensures r.Some? ==> r.value == obj.items
    ensures obj == ListObj([]) ==> r == Some([])
  {
    if obj.ListObj? && forall i | 0 <= i < |obj.items| :: IsInstance(obj.items[i], t) then Some(obj.items) else None
  }

  /** The cases the tests fix: texts, numbers, booleans and single records are not lists. */
  lemma IsArrayListRejectsNonLists(obj: Obj, t: ElementType)
    requires !obj.ListObj?
    ensures IsArrayList(obj, t) == None
  {
  }

  /** `getSeededSongs`: eleven songs. */
  function GetSeededSongs(): (r: seq<Song>)
    ensures |r| == 11
    ensures forall i, j | 0 <= i < j < |r| :: r[i] != r[j]
    ensures forall i | 0 <= i < |r| :: 1 <= r[i].priority <= 5
  {
    [ Song("Smooth", 3, "Latin", false, Ldp(2023, 3, 10, 10, 0), Ldp(2023, 3, 10, 10, 0)),
      Song("Lose Yourself", 1, "Hip Hop", false, Ldp(2023, 3, 12, 15, 30), Ldp(2023, 3, 11, 13, 0)),
      Song("Ain't No Mountain High Enough", 2, "Soul", false, Ldp(2023, 3, 14, 18, 45), Ldp(2023, 3, 14, 17, 30)),
      Song("Highway to Hell", 4, "Rock", false, Ldp(2023, 3, 9, 11, 30), Ldp(2023, 3, 9, 11, 0)),
      Song("Sweet Child o' Mine", 5, "Rock", true, Ldp(2023, 3, 8, 12, 15), Ldp(2023, 3, 8, 12, 0)),
      Song("Livin' on a Prayer", 1, "Rock", false, Ldp(2023, 3, 10, 20, 0), Ldp(2023, 3, 10, 19, 30)),
      Song("Billie Jean", 3, "Pop", true, Ldp(2023, 3, 11, 14, 0), Ldp(2023, 3, 11, 13, 45)),
      Song("The Power of Love", 1, "Pop", false, Ldp(2023, 3, 15, 16, 0), Ldp(2023, 3, 15, 14, 30)),
      Song("Sweet Home Alabama", 2, "Country", false, Ldp(2023, 3, 12, 17, 15), Ldp(2023, 3, 12, 16, 45)),
      Song("Enter Sandman", 4, "Metal", false, Ldp(2023, 3, 14, 10, 30), Ldp(2023, 3, 14, 10, 0)),
      Song("Beat It", 3, "Rock", false, Ldp(2023, 2, 14, 10, 30), Ldp(2023, 2, 14, 10, 0)) ]
  }

  /** `getSeededArtists`: eight artists, each with at least one genre. */
  function GetSeededArtists(): (r: seq<Artist>)
    ensures |r| == 8
    ensures forall i | 0 <= i < |r| :: |r[i].genres| > 0
  {
    [ Artist("Michael Jackson", Ldp(1964, 2, 14, 10, 30), ["Pop", "Rock", "Funk"]),
      Artist("AC/DC", Ldp(1973, 2, 14, 10, 30), ["Rock", "Metal"]),
      Artist("Eminem", Ldp(1988, 2, 14, 10, 30), ["Hip Hop", "Rap"]),
      Artist("Guns N' Roses", Ldp(1985, 2, 14, 10, 30), ["Rock", "Metal"]),
      Artist("The Beatles", Ldp(1960, 2, 14, 10, 30), ["Rock", "Pop"]),
      Artist("Ariana Grande", Ldp(2008, 2, 14, 10, 30), ["Pop", "R&B"]),
      Artist("Kendrick Lamar", Ldp(2004, 2, 14, 10, 30), ["Hip Hop", "Rap"]),
      Artist("Taylor Swift", Ldp(2004, 2, 14, 10, 30), ["Pop", "Country"]) ]
  }
}
