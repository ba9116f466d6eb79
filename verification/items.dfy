/** The records exchanged with the catalog API. */
module Items {
  import opened Wrappers

  /** Catalog identifiers are integers in the ECSR catalog. */
  type Id = nat

  /** The restriction tags of an item, such as ["Limited"]. */
  type Tags = seq<string>

  /** An entry of the search result: the pair the details request is made of. */
  datatype Asset = Asset(itemType: string, id: Id)

  /**
   * An entry of the details result. The keys the formatter reads with
   * `item[...]` are plain fields; the ones it reads with `item.get(...)` are
   * options, `None` standing for an absent key or a JSON null.
   */
  datatype ItemDetail = ItemDetail(
    name: string,
    id: Id,
    price: Option<nat>,
    priceTickets: Option<nat>,
    creatorName: string,
    itemRestrictions: Option<Tags>,
    offsaleDeadline: Option<string>)
}
