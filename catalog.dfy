/**
 * The persisted `products` table: its row type, the six sample rows the
 * program seeds at start-up, and the store itself, a table keyed by
 * `product_id` into which the seed loop inserts with `INSERT OR IGNORE`.
 */
module Catalog {

  /** One row of `products(product_id, name, category, skin_type, concern, price, ingredients)`. */
  datatype Product = Product(
    id: int,
    name: string,
    category: string,
    skinType: string,
    concern: string,
    price: int,
    ingredients: string)

  /** The sample rows, in the order the seed loop inserts them. */
  const Sample: seq<Product> := [
    Product(1, "Niacinamide Serum", "Serum", "Oily, Combination", "Acne, Pores", 450, "Niacinamide, Zinc"),
    Product(2, "Hyaluronic Acid Serum", "Serum", "Dry, Sensitive", "Dryness", 550, "Hyaluronic Acid"),
    Product(3, "AHA BHA Cleanser", "Cleanser", "Oily", "Acne", 399, "Salicylic Acid"),
    Product(4, "Ceramide Moisturizer", "Moisturizer", "Dry, Sensitive", "Barrier Repair", 649, "Ceramides"),
    Product(5, "Vitamin C Serum", "Serum", "All", "Pigmentation", 700, "Vitamin C"),
    Product(6, "Watermelon Gel Moisturizer", "Moisturizer", "Oily, Combination", "Hydration", 599, "Watermelon Extract")
  ]

  /** Every row is stored under its own `product_id`. */
  ghost predicate KeyedById(m: map<int, Product>)
  {
    forall k :: k in m ==> m[k].id == k
  }

  /** The ids of a list of rows. */
  function Ids(rows: seq<Product>): (ids: set<int>)
    ensures forall i :: 0 <= i < |rows| ==> rows[i].id in ids
    ensures forall k :: k in ids ==> exists i :: 0 <= i < |rows| && rows[i].id == k
  {
    set i | 0 <= i < |rows| :: rows[i].id
  }

  /** `INSERT OR IGNORE` of one row into a table keyed by `product_id`. */
  function InsertOrIgnore(m: map<int, Product>, p: Product): (r: map<int, Product>)
    ensures r.Keys == m.Keys + {p.id}
    ensures forall k :: k in m ==> r[k] == m[k]
    ensures p.id !in m ==> r[p.id] == p
  {
    if p.id in m then m else m[p.id := p]
  }

  /** The table after inserting `rows` one after the other, each with `INSERT OR IGNORE`. */
  function InsertAll(m: map<int, Product>, rows: seq<Product>): (r: map<int, Product>)
    ensures r.Keys == m.Keys + Ids(rows)
    ensures forall k :: k in m ==> r[k] == m[k]
  {
    if rows == [] then m
    else
      var init := rows[..|rows| - 1];
      assert Ids(rows) == Ids(init) + {rows[|rows| - 1].id} by {
        forall k | k in Ids(rows) ensures k in Ids(init) + {rows[|rows| - 1].id} {
          var i :| 0 <= i < |rows| && rows[i].id == k;
          if i < |rows| - 1 { assert init[i] == rows[i]; }
        }
        forall k | k in Ids(init) ensures k in Ids(rows) {
          var i :| 0 <= i < |init| && init[i].id == k;
          assert rows[i] == init[i];
        }
      }
      InsertOrIgnore(InsertAll(m, init), rows[|rows| - 1])
  }

  /** Seeding keeps every row stored under its own id. */
  lemma {:induction false} InsertAllKeyedById(m: map<int, Product>, rows: seq<Product>)
    requires KeyedById(m)
    ensures KeyedById(InsertAll(m, rows))
  {
    if rows != [] {
      InsertAllKeyedById(m, rows[..|rows| - 1]);
    }
  }

  /** Inserting rows whose ids are all present already changes nothing. */
  lemma {:induction false} InsertAllPresent(m: map<int, Product>, rows: seq<Product>)
    requires Ids(rows) <= m.Keys
    ensures InsertAll(m, rows) == m
  {
    if rows != [] {
      var init := rows[..|rows| - 1];
      assert Ids(init) <= Ids(rows) by {
        forall k | k in Ids(init) ensures k in Ids(rows) {
          var i :| 0 <= i < |init| && init[i].id == k;
          assert rows[i] == init[i];
        }
      }
      InsertAllPresent(m, init);
    }
  }

  /** Seeding twice gives the same table as seeding once. */
  lemma SeedTwiceIsSeedOnce(m: map<int, Product>, rows: seq<Product>)
    ensures InsertAll(InsertAll(m, rows), rows) == InsertAll(m, rows)
  {
    InsertAllPresent(InsertAll(m, rows), rows);
  }

  /** The sample rows carry the ids 1 to 6, in that order. */
  lemma SampleIds()
    ensures |Sample| == 6
    ensures forall i :: 0 <= i < |Sample| ==> Sample[i].id == i + 1
  {
  }

  /**
   * Inserting rows with distinct ids that are all absent from the table
   * stores every one of them under its id.
   */
  lemma {:induction false} InsertAllFresh(m: map<int, Product>, rows: seq<Product>)
    requires forall i, j :: 0 <= i < j < |rows| ==> rows[i].id != rows[j].id
    requires forall i :: 0 <= i < |rows| ==> rows[i].id !in m
    ensures forall i :: 0 <= i < |rows| ==> InsertAll(m, rows)[rows[i].id] == rows[i]
  {
    if rows != [] {
      var init := rows[..|rows| - 1];
      InsertAllFresh(m, init);
      forall i | 0 <= i < |rows| ensures InsertAll(m, rows)[rows[i].id] == rows[i] {
        if i < |rows| - 1 {
          assert init[i] == rows[i];
        } else {
          assert rows[i].id !in Ids(init);
        }
      }
    }
  }

  /** Seeding an empty table stores exactly the six sample rows, each under its own id 1 to 6. */
  lemma SeedEmptyTable()
    ensures forall k :: k in InsertAll(map[], Sample) <==> 1 <= k <= 6
    ensures forall i :: 0 <= i < |Sample| ==> InsertAll(map[], Sample)[i + 1] == Sample[i]
  {
    SampleIds();
    InsertAllFresh(map[], Sample);
    forall k | k in Ids(Sample) ensures 1 <= k <= 6 { }
    forall k | 1 <= k <= 6 ensures k in Ids(Sample) { assert Sample[k - 1].id == k; }
  }

  /**
   * `table` is the store read in the engine's scan order: ascending
   * `product_id`, every stored row exactly once.
   */
  ghost predicate IsScanOf(table: seq<Product>, m: map<int, Product>)
  {
    && (forall i, j :: 0 <= i < j < |table| ==> table[i].id < table[j].id)
    && (forall i :: 0 <= i < |table| ==> table[i].id in m && m[table[i].id] == table[i])
    && (forall k :: k in m ==> k in Ids(table))
  }

  /** Inserting rows with increasing ids into an empty table gives a table whose scan is those rows. */
  lemma InsertedInIdOrder(rows: seq<Product>)
    requires forall i, j :: 0 <= i < j < |rows| ==> rows[i].id < rows[j].id
    ensures IsScanOf(rows, InsertAll(map[], rows))
  {
    InsertAllFresh(map[], rows);
  }

  /** After seeding an empty table, a full scan yields the sample rows in order. */
  lemma SampleIsScanOfSeededTable()
    ensures IsScanOf(Sample, InsertAll(map[], Sample))
  {
    SampleIds();
    InsertedInIdOrder(Sample);
  }

  /**
   * The store: the `products` table as a map from `product_id` to its row.
   * Rows are only ever added, never updated or removed.
   */
  class CatalogStore {
    var rows: map<int, Product>

    ghost predicate Valid()
      reads this
    {
      KeyedById(rows)
    }

    /** A newly created, empty table. */
    constructor ()
      ensures Valid() && rows == map[]
    {
      rows := map[];
    }

    /** `INSERT OR IGNORE`: adds `p` unless a row with its id is stored already. */
    method Insert(p: Product)
      requires Valid()
      modifies this
      ensures Valid()
      ensures rows == InsertOrIgnore(old(rows), p)
    {
      if p.id !in rows {
        rows := rows[p.id := p];
      }
    }

    /** The seed loop over a list of rows: each is inserted, in order, with `INSERT OR IGNORE`. */
    method InsertRows(batch: seq<Product>)
      requires Valid()
      modifies this
      ensures Valid()
      ensures rows == InsertAll(old(rows), batch)
    {
      for i := 0 to |batch|
        invariant Valid()
        invariant rows == InsertAll(old(rows), batch[..i])
      {
        assert batch[..i + 1][..i] == batch[..i];
        Insert(batch[i]);
      }
      assert batch[..|batch|] == batch;
    }

    /** Seeding: the sample rows inserted in order; stored rows are kept and every sample id is present. */
    method Seed()
      requires Valid()
      modifies this
      ensures Valid()
      ensures rows == InsertAll(old(rows), Sample)
      ensures forall k :: k in old(rows) ==> rows[k] == old(rows)[k]
      ensures forall i :: 0 <= i < |Sample| ==> Sample[i].id in rows
    {
      InsertRows(Sample);
    }
  }
}
