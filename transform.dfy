/**
 * The transformer: maps a catalog card onto a row of the `cards` table.
 * It is pure and total; every card yields exactly one row.
 */
module Transform {
  import opened Scryfall

  /**
   * The row the transformer produces: the fields it sets of the table's
   * insert shape. The store-managed id, timestamps, `scryfall_uri` and
   * `card_object_uri` are never set by it and are not part of the row.
   */
  datatype DatabaseCard = DatabaseCard(
    scryfallId: string,
    name: string,
    manaCost: Option<string>,
    cmc: real,
    typeLine: string,
    colors: Option<seq<string>>,
    colorIdentity: Option<seq<string>>,
    power: Option<string>,
    toughness: Option<string>,
    rarity: string,
    setCode: string,
    collectorNumber: Option<string>,
    keywords: string,
    imageUris: Option<ImageUris>)

  const KEYWORD_SEPARATOR: string := ", "

  /** `s || null` on an optional string: null exactly when `s` is falsy. */
  function StringOrNull(s: Option<string>): (r: Option<string>)
    ensures r.None? <==> Falsy(s)
    ensures r.Some? ==> r == s
  {
    if Falsy(s) then None else s
  }

  /** Sum of the lengths of the parts. */
  function TotalLength(parts: seq<string>): nat
  {
    if parts == [] then 0 else |parts[0]| + TotalLength(parts[1..])
  }

  /** `parts.join(sep)`: the parts in order, with `sep` between neighbours. */
  function Join(parts: seq<string>, sep: string): (r: string)
    ensures parts == [] ==> r == ""
    ensures |parts| == 1 ==> r == parts[0]
    ensures parts != [] ==> |r| == TotalLength(parts) + |sep| * (|parts| - 1)
  {
    if |parts| == 0 then ""
    else if |parts| == 1 then parts[0]
    else parts[0] + sep + Join(parts[1..], sep)
  }

  /** Joining grows from the left: one more part adds a separator and the part. */
  lemma {:induction false} JoinSnoc(parts: seq<string>, x: string, sep: string)
    requires parts != []
    ensures Join(parts + [x], sep) == Join(parts, sep) + sep + x
  {
    if |parts| == 1 {
      assert parts + [x] == [parts[0], x];
    } else {
      assert (parts + [x])[1..] == parts[1..] + [x];
      JoinSnoc(parts[1..], x, sep);
    }
  }

  /** The nullable text fields of a row are null or non-empty, never "". */
  predicate NoEmptyNullableText(r: DatabaseCard)
  {
    && (r.manaCost.Some? ==> r.manaCost.value != "")
    && (r.power.Some? ==> r.power.value != "")
    && (r.toughness.Some? ==> r.toughness.value != "")
    && (r.collectorNumber.Some? ==> r.collectorNumber.value != "")
  }

  /**
   * transformCardForDatabase. The four optional text fields become null when
   * absent or empty and are copied otherwise; list and object fields become
   * null only when absent (an empty list stays an empty list); the
   * identifying fields and `cmc` are copied verbatim; keywords are joined.
   */
  function TransformCardForDatabase(c: ScryfallCard): (r: DatabaseCard)
    ensures r.scryfallId == c.id && r.name == c.name && r.cmc == c.cmc
    ensures r.typeLine == c.typeLine && r.rarity == c.rarity && r.setCode == c.setCode
    ensures r.manaCost.None? <==> Falsy(c.manaCost)
    ensures r.power.None? <==> Falsy(c.power)
    ensures r.toughness.None? <==> Falsy(c.toughness)
    ensures r.collectorNumber.None? <==> Falsy(c.collectorNumber)
    ensures r.manaCost.Some? ==> r.manaCost == c.manaCost
    ensures r.power.Some? ==> r.power == c.power
    ensures r.toughness.Some? ==> r.toughness == c.toughness
    ensures r.collectorNumber.Some? ==> r.collectorNumber == c.collectorNumber
    ensures NoEmptyNullableText(r)
    ensures r.colors.None? <==> c.colors.None?
    ensures r.colors.Some? ==> r.colors == c.colors
    ensures r.colorIdentity == c.colorIdentity && r.imageUris == c.imageUris
    ensures c.keywords == [] ==> r.keywords == ""
    ensures r.keywords == Join(c.keywords, KEYWORD_SEPARATOR)
  {
    DatabaseCard(
      scryfallId := c.id,
      name := c.name,
      manaCost := StringOrNull(c.manaCost),
      cmc := c.cmc,
      typeLine := c.typeLine,
      colors := c.colors,
      colorIdentity := c.colorIdentity,
      power := StringOrNull(c.power),
      toughness := StringOrNull(c.toughness),
      rarity := c.rarity,
      setCode := c.setCode,
      collectorNumber := StringOrNull(c.collectorNumber),
      keywords := Join(c.keywords, KEYWORD_SEPARATOR),
      imageUris := c.imageUris)
  }

  /** transformCardsForDatabase: the transformer applied element by element. */
  function TransformCardsForDatabase(cards: seq<ScryfallCard>): (r: seq<DatabaseCard>)
    ensures |r| == |cards|
    ensures forall i :: 0 <= i < |cards| ==> r[i] == TransformCardForDatabase(cards[i])
  {
    if cards == [] then []
    else [TransformCardForDatabase(cards[0])] + TransformCardsForDatabase(cards[1..])
  }

  /** Transforming pages one by one and concatenating equals transforming the concatenation. */
  lemma TransformDistributes(a: seq<ScryfallCard>, b: seq<ScryfallCard>)
    ensures TransformCardsForDatabase(a + b) == TransformCardsForDatabase(a) + TransformCardsForDatabase(b)
  {
    var lhs, rhs := TransformCardsForDatabase(a + b), TransformCardsForDatabase(a) + TransformCardsForDatabase(b);
    assert |lhs| == |rhs|;
    forall i | 0 <= i < |lhs| ensures lhs[i] == rhs[i] {
      if i < |a| { assert (a + b)[i] == a[i]; } else { assert (a + b)[i] == b[i - |a|]; }
    }
  }
}
