/**
 * The catalog's records as the importer sees them, and the small
 * failure-carrying datatypes the rest of the model uses.
 *
 * Only the fields the importer reads are modelled; the catalog's other
 * fields (prices, legalities, related links, ...) are dropped by the
 * transformer and play no part in the pipeline.
 */
module Scryfall {

  datatype Option<T> = None | Some(value: T)

  datatype Result<T, E> = Ok(value: T) | Err(error: E)

  /** Success, or failure with an error; for steps that return nothing. */
  datatype Outcome<E> = Pass | Fail(error: E)

  /** The error body the catalog sends with a non-success status. */
  datatype ApiError = ApiError(code: string, status: int, details: string)

  /** What one rate-limited GET yields: the parsed body, or the catalog's error. */
  type FetchResult<T> = Result<T, ApiError>

  /** JavaScript truthiness of an optional string: absent and "" are falsy. */
  predicate Falsy(s: Option<string>)
  {
    s.None? || s.value == ""
  }

  datatype ImageUris = ImageUris(
    small: string,
    normal: string,
    large: string,
    png: string,
    artCrop: string,
    borderCrop: string)

  /**
   * One printed card. `setCode` is the catalog's `set` field. The optional
   * fields of the catalog's record are `Option`s; `collectorNumber` and
   * `colorIdentity` are declared required but the transformer guards them
   * anyway, so they are optional here too.
   */
  datatype ScryfallCard = ScryfallCard(
    id: string,
    oracleId: string,
    name: string,
    manaCost: Option<string>,
    cmc: real,
    typeLine: string,
    colors: Option<seq<string>>,
    colorIdentity: Option<seq<string>>,
    power: Option<string>,
    toughness: Option<string>,
    rarity: string,
    setCode: string,
    collectorNumber: Option<string>,
    keywords: seq<string>,
    imageUris: Option<ImageUris>)

  /** Metadata of one set; `cardCount` is the count the catalog declares. */
  datatype ScryfallSet = ScryfallSet(
    id: string,
    code: string,
    name: string,
    releasedAt: string,
    setType: string,
    cardCount: int,
    digital: bool,
    nonfoilOnly: bool,
    foilOnly: bool)

  /** One page of a card search. */
  datatype SearchPage = SearchPage(
    totalCards: int,
    hasMore: bool,
    nextPage: Option<string>,
    data: seq<ScryfallCard>)
}
