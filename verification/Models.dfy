/**
 * The record types of models/Song.kt and models/Artist.kt. Kotlin `data class`
 * equality is structural over every field, which is exactly datatype equality.
 */
module Models {

  /** A local date-time, as whole seconds since 1970-01-01T00:00 (no time zone). */
  type Timestamp = int

  const SecondsPerDay: int := 86400

  /**
   * A song. `priority` is documented as 1 (lowest) to 5 (highest); the record
   * itself does not enforce it.
   */
  datatype Song = Song(
    title: string,
    priority: int,
    category: string,
    isArchived: bool,
    updatedAt: Timestamp,
    createdAt: Timestamp)

  /** A music artist or band. */
  datatype Artist = Artist(name: string, foundedDate: Timestamp, genres: seq<string>)

  /**
   * What a `list*` operation hands to the table renderer, or the message it
   * returns instead when there is nothing to show.
   */
  datatype Listing<T> = NothingStored(message: string) | Rows(rows: seq<T>)

  /** Days since 1970-01-01 of a proleptic Gregorian date (days-from-civil). */
  function DaysFromCivil(year: int, month: int, day: int): int
    requires 1 <= month <= 12 && 1 <= day <= 31 && year >= 1
  {
    var y := if month <= 2 then year - 1 else year;
    var era := y / 400;
    var yoe := y - era * 400;
    var mp := (month + 9) % 12;
    var doy := (153 * mp + 2) / 5 + day - 1;
    var doe := yoe * 365 + yoe / 4 - yoe / 100 + doy;
    era * 146097 + doe - 719468
  }

  /**
   * The instant written `yyyy-MM-ddTHH:mm` in ISO 8601 extended local
   * date-time form, given by its fields rather than as text.
   */
  function Ldp(year: int, month: int, day: int, hour: int, minute: int): Timestamp
    requires year >= 1 && 1 <= month <= 12 && 1 <= day <= 31 && 0 <= hour < 24 && 0 <= minute < 60
  {
    DaysFromCivil(year, month, day) * SecondsPerDay + hour * 3600 + minute * 60
  }
}
