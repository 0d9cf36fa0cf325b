# Skin care recommender, modelled in Dafny

A model of the recommendation core of the skin care recommendation
system (`skincare.py`): a desktop form asks for a skin type, a skin
concern, a maximum budget and a product category, and the program
answers with products from a small SQLite `products` table, or, when
the table has no match, from a static in-memory catalogue.

The model covers:

- **rows** (`rows.dfy`): one result row type shared by the primary query
  and the fallback, tagged by the phase that produced it; `optional.dfy`
  holds the option type that stands for Python's `None`.
- **the store and its seeding** (`catalog.dfy`): the `products` row
  type, the six sample rows, and `Catalog.CatalogStore`, a class whose
  `rows` map (`product_id` to row) the seed loop fills with
  `INSERT OR IGNORE`. Seeding keeps rows keyed by id, never changes a
  stored row, and seeding twice is seeding once.
- **SQLite `LIKE`** (`like.dfy`): the operator as the primary query uses
  it (no `ESCAPE`, `%` and `_` wildcards, ASCII case-insensitive), proved
  equal to a case-insensitive substring test when the request contains
  neither `%` nor `_`, and shown to differ when it contains `_`.
- **the primary query** (`recommender.dfy`): the `WHERE price <= ?`
  clause and one `LIKE '%value%'` clause per dimension that is not
  "all"; the overflow raised for a budget outside SQLite's signed 64-bit
  range; the error path that returns no rows; and `Recommend`, which
  falls back to the catalogue only when the query succeeds and returns
  nothing.
- **the fallback scan** (`fallback.dfy`): the seven-bucket catalogue, the
  synonym map from a category to a bucket, the price, skin and concern
  checks, the output row, and `ScanBucket` and `ScanBuckets`, the inner
  and outer loops, proved against a recursive specification. No catalogue entry has a price,
  so the default price 9999 is compared with the budget and no budget
  below 9999 lets any entry through.
- **budget parsing** (`budget.dfy`): an empty field means 99999;
  anything else is read as Python's `int()` reads text (surrounding
  whitespace, an optional sign, digits with single underscores between
  them, at most 4300 digits). The whitespace is the ASCII space, tab,
  line feed, vertical tab, form feed and carriage return and the
  non-ASCII spaces; the separators U+001C..U+001F are not skipped. Every integer written out by `str` reads
  back as itself.
- **the button handler** (`form.dfy`): `Form.Window`, a class with the
  four form fields and the result box. An invalid budget raises the
  input-error dialog and leaves the box alone. Otherwise the box shows
  the error, the no-match notice or one block per row.

Things outside the model are parameters. `Recommend` and
`Window.ShowRecommendations` take the table as a sequence of rows in the
engine's scan order (`Catalog.IsScanOf` ties it to the store), and
`failure`, the message of any exception the database itself raises.

An oily-skin, acne, cleanser request within a budget of 400 finds the
seeded AHA BHA Cleanser (price 399, skin type "Oily", concern "Acne"):
see `Recommender.SeededOilyAcneCleanser`.

## Model

| member | source | states |
|---|---|---|
| Text.JoinContainsPart | skincare.py:147 | every tag occurs as a substring of the tags joined by a separator |
| SqlLike.PercentMatchesAll | skincare.py:105 | a lone `%` matches every text |
| SqlLike.PrefixPattern | skincare.py:105 | `t LIKE 'x%'` holds exactly when `x` matches the start of `t` character by character |
| SqlLike.LeadingPercent | skincare.py:105 | `s LIKE '%q'` holds exactly when `q` matches some suffix of `s` |
| SqlLike.SurroundedPattern | skincare.py:104-111 | `s LIKE '%x%'` holds exactly when `x` matches at some position of `s` |
| SqlLike.LikeIsContainment | skincare.py:104-111 | with no `%` or `_` in the value, `field LIKE '%value%'` holds exactly when the value is a case-insensitive substring of the field |
| SqlLike.UnderscoreMatchesAnyCharacter | skincare.py:109-111 | a `_` typed in the request is a wildcard: "acne_treatment" matches "Acne treatment", which does not contain it |
| Catalog.InsertOrIgnore | skincare.py:41 | `INSERT OR IGNORE` adds the row's id, keeps every stored row, and stores the row only when its id was absent |
| Catalog.InsertAll | skincare.py:39-44 | inserting a list of rows adds exactly their ids and never changes a stored row |
| Catalog.InsertAllKeyedById | skincare.py:39-44 | seeding keeps every row stored under its own `product_id` |
| Catalog.InsertAllPresent | skincare.py:39-44 | inserting rows whose ids are all present already leaves the table unchanged |
| Catalog.SeedTwiceIsSeedOnce | skincare.py:39-44 | running the seed loop on a table it has already seeded changes nothing |
| Catalog.SampleIds | skincare.py:30-37 | the six sample rows carry ids 1 to 6 in order |
| Catalog.InsertAllFresh | skincare.py:39-44 | rows with distinct ids, none present, are each stored under their id |
| Catalog.SeedEmptyTable | skincare.py:29-44 | seeding an empty table stores exactly ids 1 to 6, each with its sample row |
| Catalog.InsertedInIdOrder | skincare.py:39-44 | rows with increasing ids inserted into an empty table are exactly what a full scan of it yields, in order |
| Catalog.SampleIsScanOfSeededTable | skincare.py:29-44 | a full scan of the freshly seeded table yields the sample rows in order |
| Catalog.CatalogStore.constructor | skincare.py:16-26 | a newly created table is empty |
| Catalog.CatalogStore.Insert | skincare.py:41 | the store after one `INSERT OR IGNORE` is `InsertOrIgnore` of the old store, still keyed by id |
| Catalog.CatalogStore.InsertRows | skincare.py:39-43 | the store after the loop is the old store with the given rows inserted in order, still keyed by id |
| Catalog.CatalogStore.Seed | skincare.py:39-44 | the store after the seed loop is the old store with every sample row inserted in order; stored rows unchanged, every sample id present |
| Fallback.BucketOrderIsCatalogue | skincare.py:47-95 | the bucket order lists each of the seven catalogue buckets exactly once |
| Fallback.SynonymsNameBuckets | skincare.py:127-135 | every synonym names a bucket, each bucket key maps to itself, and "all" is not a synonym |
| Fallback.SelectKeys | skincare.py:122-139 | "all" in any case and any unknown category select every bucket in order; a known synonym selects its one bucket |
| Fallback.KeptRows | skincare.py:142-148 | a bucket yields at most one row per entry |
| Fallback.KeptRowsMembers | skincare.py:142-148 | a row comes from a bucket exactly when some entry passes the price, skin and concern checks and renders as that row |
| Fallback.ScanRowsMembers | skincare.py:141-148 | a row is in the scan exactly when one of the scanned buckets yields it |
| Fallback.ScanRowsExactly | skincare.py:141-149 | a row is in the scan exactly when it is the row of a passing entry of a selected bucket |
| Fallback.ConcernNamingTag | skincare.py:147 | a concern equal to one of the entry's skin tags, ignoring case, passes the concern check |
| Fallback.CatalogueIsUnpriced | skincare.py:47-95 | no catalogue entry has a price |
| Fallback.ScanBelowDefaultPrice | skincare.py:143-145 | over unpriced entries, a budget below 9999 keeps nothing |
| Fallback.FallbackNeedsDefaultPrice | skincare.py:141-149 | the fallback scan returns nothing for any budget below 9999, whatever else is requested |
| Fallback.FallbackRowsUnpriced | skincare.py:148 | every fallback row shows its price as 'N/A' |
| Fallback.LabelOfKey | skincare.py:148 | `k[:-1].capitalize()` of a lower-case key is its first letter upper-cased followed by the rest without the last letter |
| Fallback.BucketLabels | skincare.py:148 | the category shown for the "cleansers" bucket is "Cleanser", and for "acne_treatments" it is "Acne_treatment", underscore kept |
| Fallback.ScanBucket | skincare.py:142-148 | the inner loop appends exactly the rows of the bucket's passing entries, in entry order |
| Fallback.ScanBuckets | skincare.py:141-149 | the outer loop over the selected buckets returns exactly the specified scan, bucket after bucket |
| Fallback.ScanFallback | skincare.py:120-149 | the fallback result for a request is the scan of the buckets its category selects |
| Recommender.AddFilter | skincare.py:103-111 | adding a dimension keeps the budget and narrows the matching rows to those whose field also matches the dimension |
| Recommender.BuildQuery | skincare.py:99-111 | a row satisfies the built query exactly when its price is within budget and each dimension is "all" or its field is `LIKE '%value%'` |
| Recommender.Select | skincare.py:114-115 | the query fetches at most one row per table row |
| Recommender.SelectMembers | skincare.py:114-115 | a row is fetched exactly when it is the row of a table row that satisfies the query |
| Recommender.SelectEverything | skincare.py:114-115 | when every table row satisfies the query, all are fetched, in order |
| Recommender.Recommend | skincare.py:98-151 | returns the outcome the recommendation specifies: the error, the fetched rows, or the fallback rows |
| Recommender.DimensionIsContainment | skincare.py:103-111 | without wildcards, a dimension matches exactly when it is "all" or a case-insensitive substring of the field |
| Recommender.PrimaryRowsMatchRequest | skincare.py:98-117 | a table row is in the answer exactly when the query succeeds and the row satisfies the request |
| Recommender.QueryFailureSkipsFallback | skincare.py:113-117 | a query that raises gives no rows and a non-empty message starting "Database query failed: " |
| Recommender.OversizedBudgetFails | skincare.py:101-117 | a budget outside the signed 64-bit range fails with the overflow message and no rows |
| Recommender.PrimaryResultIsFinal | skincare.py:120-151 | when the query fetches rows, those rows are the answer and no fallback row appears |
| Recommender.FallbackOnlyWhenPrimaryEmpty | skincare.py:120-149 | a fallback row appears only when the query succeeded and no table row satisfied it, and then every row is a fallback row |
| Recommender.NoMatchBelowDefaultPrice | skincare.py:120-149 | with a budget below 9999 and no table match the answer is empty |
| Recommender.AllIsNoFilter | skincare.py:103-111 | "All" on every dimension leaves only the budget bound |
| Recommender.AllWithinBudget | skincare.py:98-115 | with "All" everywhere, a table whose prices are all within budget is answered in full, in order, without error |
| Recommender.SeededTableUnfiltered | skincare.py:30-37 | with "All" everywhere and a budget of at least 700, the seeded table yields all six rows in order |
| Recommender.SeededCleanserMatches | skincare.py:33 | the AHA BHA Cleanser satisfies an oily-skin, acne, cleanser request within 400 |
| Recommender.SeededOilyAcneCleanser | skincare.py:98-117 | that request on the seeded table answers exactly the AHA BHA Cleanser, without error |
| Budget.NatDigitsReadBack | skincare.py:203 | the decimal digits of a natural number are well formed and read back as the number |
| Budget.BudgetRoundTrip | skincare.py:203 | every integer written by `str` is read back by the budget field as itself |
| Budget.PaddedBudget | skincare.py:203 | whitespace around the number is ignored |
| Budget.StrayCharacterRejected | skincare.py:203-206 | a character that is not a digit, underscore, sign or whitespace makes the budget invalid |
| Budget.BlankBudgetRejected | skincare.py:203-206 | a non-empty field of whitespace only is invalid |
| Budget.EmptyBudgetIsNoLimit | skincare.py:198-206 | an empty budget field means 99999 |
| Budget.SeparatorNotSkipped | skincare.py:203-206 | a U+001C separator before the digits is not skipped as whitespace, so the budget is invalid |
| Budget.LettersRejected | skincare.py:203-206 | "abc" is not a budget |
| Form.RenderRow | skincare.py:219-229 | a listed row keeps its fields, and shows skin types exactly when it is a fallback row |
| Form.AsWrittenAlwaysIngredients | skincare.py:222 | as written, the four-field test is true for every row, so every row gets an ingredients line |
| Form.FallbackRowMislabelled | skincare.py:222-228 | a fallback row gets an ingredients line as written and a skin-types line as intended |
| Form.RenderShowsOutcome | skincare.py:210-229 | the box shows the prefixed error, or the no-match notice, or exactly one block per row in order |
| Form.ShowOutcome | skincare.py:210-229 | the result box is filled with exactly what `Render` specifies for the outcome |
| Form.InvalidBudgetRaisesDialog | skincare.py:205-208 | an invalid budget raises the input-error dialog |
| Form.FailedQueryShowsError | skincare.py:210-213 | a failing database shows an error line, never a listing |
| Form.EmptyFormIsUnfiltered | skincare.py:197-206 | empty fields mean "All" on every dimension and a budget of 99999 |
| Form.InitialBudget | skincare.py:183 | the budget the form opens with reads as 1000 |
| Form.SampleListedInFull | skincare.py:196-229 | "All" everywhere with a budget of at least 700 lists all six seeded products, each with an ingredients line |
| Form.Window.constructor | skincare.py:166-190 | the form opens with "All", "All", "1000", "All" and an empty result box |
| Form.Window.ShowRecommendations | skincare.py:196-229 | an invalid budget raises the dialog and leaves the box; otherwise the box shows the rendered outcome; the fields are unchanged |

## Findings

| source | as written | input that shows it | evidently intended | confidence | as-written member | corrected member |
|---|---|---|---|---|---|---|
| skincare.py:222 | `len(r) == 4` is true for fallback rows too, so their skin tags are printed as "Ingredients" and lines 225-228 never run | any request answered from the fallback catalogue, e.g. skin "Oily", concern "All", budget 10000, category "Toner" on the seeded table | fallback rows listed with "Suitable for skin types" | high; not executed | Form.FallbackRowMislabelled | Form.RenderRow |

## Left out

- The Tkinter window: widgets, layout, fonts, the main loop and the message boxes are not modelled. `Form.Window` keeps only the four field texts and what the result box shows. The dialog is a returned message.
- The database file, connection, `CREATE TABLE IF NOT EXISTS` and commits are not modelled. The store starts empty, and a reopened store is any store seeded again.
- Catalog.CatalogStore.Seed: an insert that raises is swallowed by the loop. No insert of the sample rows can fail in the model, so that path is absent.
- Exceptions the database raises while executing or fetching are not modelled, apart from the budget overflow. They are the `failure` parameter.
- Row order: SQLite returns rows without `ORDER BY` in its scan order. The model takes that order as the given table sequence (ascending `product_id` for the store: `Catalog.IsScanOf`).
- The SQL text and its placeholder list are not modelled. `Recommender.Query` keeps the bound budget and the `LIKE` patterns, which decide the result.
- Case folding is ASCII only. Python's `str.lower()` and `str.capitalize()` and SQLite's `LIKE` agree on ASCII letters but not on other characters.
- SQLite's limit on `LIKE` pattern length (an error for very long patterns) is not modelled.
- Budget.ParseInt: Python's `int()` also accepts non-ASCII decimal digits. The model rejects them. The 4300-digit limit is the default of current CPython releases; older releases have no limit.
- Form.RenderShowsOutcome: its blocks are built with the corrected `Form.RenderRow`, so a fallback row is shown with its skin-types line. The program as written labels every row's fourth line "Ingredients:", a fallback row's skin tags included (see "## Findings"; `Form.AsWrittenAlwaysIngredients` states what the program does).
- Form.ShowOutcome: it fills the box with `Form.Render`, which uses the corrected `Form.RenderRow`; a fallback row gets the skin-types line where the program prints "Ingredients:".
- Form.Window.ShowRecommendations: the box it fills lists fallback rows with the corrected skin-types line, not the "Ingredients:" line the program prints for them.
- The printed text of the result box (labels, the rupee sign, the separator lines, how a price or a tag list is printed) is not modelled. Only the order of the blocks, their rows and which fourth line each shows is modelled.
- The `budget is None` test of the fallback filter cannot be true, because the handler always passes an integer. The model leaves it out.
- The troubleshooting comments at the end of the file are not code.
