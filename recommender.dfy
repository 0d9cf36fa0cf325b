/**
 * The recommendation filter: the primary query against the `products`
 * table, built clause by clause from the request, and the fallback scan of
 * the static catalogue when that query returns no row.
 */
module Recommender {
  import opened Optional
  import opened Text
  import opened SqlLike
  import opened Catalog
  import opened Rows
  import opened Fallback

  /** The three text columns a request can filter on. */
  datatype Column = SkinTypeColumn | ConcernColumn | CategoryColumn

  /** One `AND column LIKE ?` clause with the pattern bound to its placeholder. */
  datatype Condition = Condition(column: Column, pattern: string)

  /**
   * The statement and its parameters: `WHERE price <= ?` bound to the
   * budget, followed by the `LIKE` clauses in the order they were appended.
   */
  datatype Query = Query(budget: int, conditions: seq<Condition>)

  /** The result of a recommendation: the rows, or an error message. */
  datatype Outcome = Outcome(rows: seq<Row>, error: Option<string>)

  /** The prefix of the error message for a query that raised. */
  const QueryFailedPrefix: string := "Database query failed: "

  /** The message of the OverflowError raised when binding an integer outside SQLite's range. */
  const OverflowMessage: string := "Python int too large to convert to SQLite INTEGER"

  /** SQLite integers are signed 64-bit. */
  const Int64Min: int := -0x8000_0000_0000_0000
  const Int64Max: int := 0x7FFF_FFFF_FFFF_FFFF

  /** The stored text of column `c` in row `p`. */
  function Field(p: Product, c: Column): string
  {
    match c
    case SkinTypeColumn => p.skinType
    case ConcernColumn => p.concern
    case CategoryColumn => p.category
  }

  /** One request dimension: "all" in any case adds no constraint, anything else is `field LIKE '%value%'`. */
  predicate DimensionMatches(value: string, field: string)
  {
    Lower(value) == "all" || Like(field, "%" + value + "%")
  }

  /** A table row satisfies every clause of the query. */
  predicate Matches(q: Query, p: Product)
  {
    p.price <= q.budget && forall c :: c in q.conditions ==> Like(Field(p, c.column), c.pattern)
  }

  /** Adds the clause for one dimension unless its value is "all" in any case. */
  function AddFilter(q: Query, c: Column, value: string): (r: Query)
    ensures r.budget == q.budget
    ensures forall p :: Matches(r, p) <==> Matches(q, p) && DimensionMatches(value, Field(p, c))
  {
    if Lower(value) != "all" then Query(q.budget, q.conditions + [Condition(c, "%" + value + "%")]) else q
  }

  /**
   * The query the request builds: the budget bound first, then the skin
   * type, concern and category clauses for the dimensions that are not "all".
   */
  function BuildQuery(skin: string, concern: string, budget: int, category: string): (q: Query)
    ensures q.budget == budget && |q.conditions| <= 3
    ensures forall p :: Matches(q, p) <==>
      && p.price <= budget
      && DimensionMatches(skin, p.skinType)
      && DimensionMatches(concern, p.concern)
      && DimensionMatches(category, p.category)
  {
    var q0 := Query(budget, []);
    var q1 := AddFilter(q0, SkinTypeColumn, skin);
    var q2 := AddFilter(q1, ConcernColumn, concern);
    AddFilter(q2, CategoryColumn, category)
  }

  /**
   * The exception the query raises, if any: binding a budget outside
   * SQLite's 64-bit range raises OverflowError; otherwise `failure` stands
   * for whatever the database itself may raise while executing or fetching.
   */
  function ExecutionError(q: Query, failure: Option<string>): (e: Option<string>)
    ensures !(Int64Min <= q.budget <= Int64Max) ==> e == Some(OverflowMessage)
    ensures Int64Min <= q.budget <= Int64Max ==> e == failure
  {
    if q.budget < Int64Min || Int64Max < q.budget then Some(OverflowMessage) else failure
  }

  /** The result row of a table row: `(name, category, price, ingredients)`. */
  function PrimaryRow(p: Product): Row
  {
    Row.Primary(p.name, p.category, p.price, p.ingredients)
  }

  /** The rows the query fetches, in the table's scan order. */
  function Select(q: Query, table: seq<Product>): (rows: seq<Row>)
    ensures |rows| <= |table|
  {
    if table == [] then []
    else
      var p := table[|table| - 1];
      Select(q, table[..|table| - 1]) + (if Matches(q, p) then [PrimaryRow(p)] else [])
  }

  /** A fetched row is the row of a table row that satisfies the query, and every such row is fetched. */
  lemma {:induction false} SelectMembers(q: Query, table: seq<Product>, r: Row)
    ensures r in Select(q, table) <==> exists i :: 0 <= i < |table| && Matches(q, table[i]) && r == PrimaryRow(table[i])
  {
    if table != [] {
      var init := table[..|table| - 1];
      SelectMembers(q, init, r);
      if r in Select(q, init) {
        var i :| 0 <= i < |init| && Matches(q, init[i]) && r == PrimaryRow(init[i]);
        assert table[i] == init[i];
      }
      if exists i :: 0 <= i < |table| && Matches(q, table[i]) && r == PrimaryRow(table[i]) {
        var i :| 0 <= i < |table| && Matches(q, table[i]) && r == PrimaryRow(table[i]);
        if i < |init| {
          assert init[i] == table[i];
        }
      }
    }
  }

  /** When every table row satisfies the query, all of them are fetched, in order. */
  lemma {:induction false} SelectEverything(q: Query, table: seq<Product>)
    requires forall i :: 0 <= i < |table| ==> Matches(q, table[i])
    ensures |Select(q, table)| == |table|
    ensures forall i :: 0 <= i < |table| ==> Select(q, table)[i] == PrimaryRow(table[i])
  {
    if table != [] {
      SelectEverything(q, table[..|table| - 1]);
    }
  }

  /**
   * `get_recommendations`: a query that raises yields no rows and the
   * error; otherwise the fetched rows, or the fallback rows when none was
   * fetched.
   */
  function Recommendation(table: seq<Product>, failure: Option<string>,
                          skin: string, concern: string, budget: int, category: string): Outcome
  {
    var q := BuildQuery(skin, concern, budget, category);
    match ExecutionError(q, failure)
    case Some(e) => Outcome([], Some(QueryFailedPrefix + e))
    case None =>
      var rows := Select(q, table);
      if rows == [] then Outcome(FallbackRows(skin, concern, budget, category), None)
      else Outcome(rows, None)
  }

  /** `get_recommendations` as the source runs it. */
  method Recommend(table: seq<Product>, failure: Option<string>,
                   skin: string, concern: string, budget: int, category: string)
    returns (rows: seq<Row>, err: Option<string>)
    ensures Outcome(rows, err) == Recommendation(table, failure, skin, concern, budget, category)
  {
    var q := BuildQuery(skin, concern, budget, category);
    var raised := ExecutionError(q, failure);
    if raised.Some? {
      return [], Some(QueryFailedPrefix + raised.value);
    }
    rows := Select(q, table);
    if rows == [] {
      rows := ScanFallback(skin, concern, budget, category);
    }
    err := None;
  }

  /** Without wildcard characters in the request, a dimension is the case-insensitive substring test. */
  lemma DimensionIsContainment(value: string, field: string)
    requires NoWildcards(value)
    ensures DimensionMatches(value, field) <==> Lower(value) == "all" || ContainsCI(field, value)
  {
    LikeIsContainment(field, value);
  }

  /**
   * Every row the primary phase returns is the row of a table product within
   * the budget that satisfies each dimension, and every such product's row is
   * returned.
   */
  lemma PrimaryRowsMatchRequest(table: seq<Product>, failure: Option<string>,
                                skin: string, concern: string, budget: int, category: string, r: Row)
    requires r.Primary?
    ensures r in Recommendation(table, failure, skin, concern, budget, category).rows <==>
      && ExecutionError(BuildQuery(skin, concern, budget, category), failure) == None
      && exists i :: 0 <= i < |table| && r == PrimaryRow(table[i])
           && table[i].price <= budget
           && DimensionMatches(skin, table[i].skinType)
           && DimensionMatches(concern, table[i].concern)
           && DimensionMatches(category, table[i].category)
  {
    var q := BuildQuery(skin, concern, budget, category);
    SelectMembers(q, table, r);
    FallbackRowsUnpriced(skin, concern, budget, category);
  }

  /** A query that raises yields no rows and a non-empty error message; the fallback does not run. */
  lemma QueryFailureSkipsFallback(table: seq<Product>, failure: Option<string>,
                                  skin: string, concern: string, budget: int, category: string)
    requires ExecutionError(BuildQuery(skin, concern, budget, category), failure).Some?
    ensures var o := Recommendation(table, failure, skin, concern, budget, category);
      o.rows == [] && o.error.Some? && o.error.value != ""
      && QueryFailedPrefix <= o.error.value
  {
  }

  /** A budget outside SQLite's integer range always fails the query. */
  lemma OversizedBudgetFails(table: seq<Product>, failure: Option<string>,
                             skin: string, concern: string, budget: int, category: string)
    requires budget > Int64Max || budget < Int64Min
    ensures Recommendation(table, failure, skin, concern, budget, category) ==
      Outcome([], Some(QueryFailedPrefix + OverflowMessage))
  {
  }

  /** When the primary phase fetches a row, those rows are returned unchanged and no fallback row is added. */
  lemma PrimaryResultIsFinal(table: seq<Product>, failure: Option<string>,
                             skin: string, concern: string, budget: int, category: string)
    requires ExecutionError(BuildQuery(skin, concern, budget, category), failure) == None
    requires Select(BuildQuery(skin, concern, budget, category), table) != []
    ensures var o := Recommendation(table, failure, skin, concern, budget, category);
      o.error == None && o.rows == Select(BuildQuery(skin, concern, budget, category), table)
      && forall r :: r in o.rows ==> r.Primary?
  {
    var q := BuildQuery(skin, concern, budget, category);
    forall r | r in Select(q, table) ensures r.Primary? {
      SelectMembers(q, table, r);
    }
  }

  /**
   * A fallback row appears only when the query succeeded and no table
   * product satisfied it; fallback rows are never mixed with primary rows.
   */
  lemma FallbackOnlyWhenPrimaryEmpty(table: seq<Product>, failure: Option<string>,
                                     skin: string, concern: string, budget: int, category: string, r: Row)
    requires r in Recommendation(table, failure, skin, concern, budget, category).rows
    requires r.Fallback?
    ensures Recommendation(table, failure, skin, concern, budget, category).error == None
    ensures forall i :: 0 <= i < |table| ==> !Matches(BuildQuery(skin, concern, budget, category), table[i])
    ensures forall s :: s in Recommendation(table, failure, skin, concern, budget, category).rows ==> s.Fallback?
  {
    var q := BuildQuery(skin, concern, budget, category);
    SelectMembers(q, table, r);
    FallbackRowsUnpriced(skin, concern, budget, category);
    forall i | 0 <= i < |table| ensures !Matches(q, table[i]) {
      SelectMembers(q, table, PrimaryRow(table[i]));
    }
  }

  /** With a budget below 9999, a request the table cannot satisfy gets no row at all. */
  lemma NoMatchBelowDefaultPrice(table: seq<Product>, failure: Option<string>,
                                 skin: string, concern: string, budget: int, category: string)
    requires budget < DefaultPrice
    requires Select(BuildQuery(skin, concern, budget, category), table) == []
    ensures Recommendation(table, failure, skin, concern, budget, category).rows == []
  {
    FallbackNeedsDefaultPrice(skin, concern, budget, category);
  }

  /** "All" on every dimension leaves only the budget bound. */
  lemma AllIsNoFilter(p: Product, budget: int)
    ensures Matches(BuildQuery("All", "All", budget, "All"), p) <==> p.price <= budget
  {
    assert Lower("All") == "all";
  }

  /** With "All" on every dimension, a table whose prices are all within budget is answered in full, in order. */
  lemma AllWithinBudget(table: seq<Product>, budget: int)
    requires Int64Min <= budget <= Int64Max
    requires table != []
    requires forall i :: 0 <= i < |table| ==> table[i].price <= budget
    ensures var o := Recommendation(table, None, "All", "All", budget, "All");
      && o.error == None && |o.rows| == |table|
      && forall i :: 0 <= i < |table| ==> o.rows[i] == PrimaryRow(table[i])
  {
    var q := BuildQuery("All", "All", budget, "All");
    forall i | 0 <= i < |table| ensures Matches(q, table[i]) {
      AllIsNoFilter(table[i], budget);
    }
    SelectEverything(q, table);
  }

  /**
   * With no filter and a budget of at least 700 (the dearest sample price),
   * the seeded table yields all six rows in order.
   */
  lemma SeededTableUnfiltered(budget: int)
    requires 700 <= budget <= Int64Max
    ensures var o := Recommendation(Sample, None, "All", "All", budget, "All");
      && o.error == None && |o.rows| == |Sample|
      && forall i :: 0 <= i < |Sample| ==> o.rows[i] == PrimaryRow(Sample[i])
  {
    assert forall i :: 0 <= i < |Sample| ==> Sample[i].price <= 700;
    AllWithinBudget(Sample, budget);
  }

  /** The seeded AHA BHA Cleanser satisfies an oily-skin, acne, cleanser request within 400. */
  lemma SeededCleanserMatches()
    ensures Matches(BuildQuery("Oily", "Acne", 400, "Cleanser"), Sample[2])
  {
    var p := Sample[2];
    assert p.skinType == "Oily" && p.concern == "Acne" && p.category == "Cleanser" && p.price == 399;
    assert Lower("Oily") != "all" && Lower("Acne") != "all" && Lower("Cleanser") != "all";
    DimensionIsContainment("Oily", "Oily");
    DimensionIsContainment("Acne", "Acne");
    DimensionIsContainment("Cleanser", "Cleanser");
    SubstringOfConcat("", Lower("Oily"), "");
    SubstringOfConcat("", Lower("Acne"), "");
    SubstringOfConcat("", Lower("Cleanser"), "");
    assert "" + Lower("Oily") + "" == Lower("Oily");
    assert "" + Lower("Acne") + "" == Lower("Acne");
    assert "" + Lower("Cleanser") + "" == Lower("Cleanser");
  }

  /**
   * An oily-skin acne cleanser under 400 is found in the seeded table: the
   * AHA BHA Cleanser at 399 satisfies every clause and is the only row that
   * fits the budget.
   */
  lemma SeededOilyAcneCleanser()
    ensures Recommendation(Sample, None, "Oily", "Acne", 400, "Cleanser") ==
      Outcome([PrimaryRow(Sample[2])], None)
  {
    var q := BuildQuery("Oily", "Acne", 400, "Cleanser");
    SeededCleanserMatches();
    assert q.budget == 400;
    assert Sample[0].price == 450 && Sample[1].price == 550 && Sample[3].price == 649;
    assert Sample[4].price == 700 && Sample[5].price == 599;
    assert Sample[..3][..2] == Sample[..2];
    assert Sample[..2][..1] == Sample[..1];
    assert Sample[..1][..0] == [];
    assert Select(q, Sample[..1]) == [];
    assert Select(q, Sample[..2]) == [];
    assert Select(q, Sample[..3]) == [PrimaryRow(Sample[2])];
    assert Sample[..4][..3] == Sample[..3];
    assert Select(q, Sample[..4]) == [PrimaryRow(Sample[2])];
    assert Sample[..5][..4] == Sample[..4];
    assert Select(q, Sample[..5]) == [PrimaryRow(Sample[2])];
    assert Sample[..6][..5] == Sample[..5];
    assert Sample[..6] == Sample;
  }
}
