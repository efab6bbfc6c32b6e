/** Catalog entries as the shows store holds them.

    An entry arrives in one of two shapes: a flat listing entry, or a search
    hit that wraps a nested `show` record.  Every field the store reads is
    resolved through one accessor that prefers the nested record. */
module Catalog {

  datatype Option<+T> = None | Some(value: T)

  /** The average rating of an entry.  The catalog marks a missing rating in
      two ways, a real null and the literal string "null"; only the ordering
      of present ratings matters, so a present rating is an integer. */
  datatype Rating = Absent | NullStr | Val(score: int)

  /** The nested record carried by search hits. */
  datatype ShowRecord = ShowRecord(id: string, genres: seq<string>)

  /** One catalog entry (a `ShowItem`); names and images are only displayed
      and are not part of this model. */
  datatype ShowItem = ShowItem(
    id: string,
    show: Option<ShowRecord>,
    rating: Rating,
    genres: seq<string>)

  /** The identifier used to fetch an entry's details: the nested record's
      id when there is one, the entry's own id otherwise. */
  function ItemId(item: ShowItem): string
  {
    match item.show
    case Some(s) => s.id
    case None => item.id
  }

  /** The genre tags of an entry, resolved by the same nested-or-flat rule. */
  function ItemGenres(item: ShowItem): seq<string>
  {
    match item.show
    case Some(s) => s.genres
    case None => item.genres
  }

  /** Whether the entry's rating is present (neither null nor "null"). */
  predicate IsRated(item: ShowItem)
  {
    item.rating.Val?
  }

  /** The value the sort compares; entries without a rating never reach it. */
  function RatingKey(item: ShowItem): int
  {
    if item.rating.Val? then item.rating.score else 0
  }

  /** An error raised by the remote catalog service, opaque to the store. */
  datatype FetchError = FetchError(message: string)

  /** The outcome of one remote call that yields a sequence of records. */
  datatype Response<T> = Ok(data: seq<T>) | Err(error: FetchError)
}
