/**
 * A result row. The source returns 4-tuples from both phases and leaves the
 * caller to guess which phase produced a row; here the phase is the tag.
 */
module Rows {
  import opened Optional

  datatype Row =
    /** `(name, category, price, ingredients)` from the `products` table. */
    | Primary(name: string, category: string, price: int, ingredients: string)
    /**
     * `(name, label, price, skin tags)` from the static catalogue; an entry
     * without a price shows `'N/A'`, which is `listedPrice == None`.
     */
    | Fallback(name: string, category: string, listedPrice: Option<int>, tags: seq<string>)
}
