/**
 * The "Get Recommendations" button: read the four form fields, parse the
 * budget, ask for recommendations and show the outcome in the result box.
 * The result box is modelled by what it shows, not by its text.
 */
module Form {
  import opened Optional
  import opened Catalog
  import opened Rows
  import opened Fallback
  import opened Budget
  import opened Recommender

  /** The message of the "Input Error" dialog. */
  const InputErrorMessage: string := "Budget must be a valid integer (e.g., 500)."

  /** The text put in front of a failed query's message. */
  const ErrorPrefix: string := "Error: "

  /** `field.get() or 'All'`: an empty selection counts as "All". */
  function OrAll(field: string): string
  {
    if field == "" then "All" else field
  }

  /** What a listed product's fourth line says. */
  datatype Detail = IngredientsLine | SkinTypesLine

  /** One listed product: its row and what its fourth line shows. */
  datatype Block = Block(row: Row, detail: Detail)

  /** What the result box shows. */
  datatype Display =
    | Blank
    | ErrorText(message: string)
    | NoMatches
    | Listing(blocks: seq<Block>)

  /** The answer to a click: an input-error dialog (the box untouched) or a new box content. */
  datatype Response = InputError(message: string) | Shown(display: Display)

  /** The number of fields of a row as the renderer unpacks it: four for both kinds. */
  function FieldCount(r: Row): nat
  {
    match r
    case Primary(_, _, _, _) => 4
    case Fallback(_, _, _, _) => 4
  }

  /** The renderer as written: the detail line is chosen by the row's field count. */
  function RenderRowAsWritten(r: Row): Block
  {
    Block(r, if FieldCount(r) == 4 then IngredientsLine else SkinTypesLine)
  }

  /** The renderer as intended: fallback rows list their skin types. */
  function RenderRow(r: Row): (b: Block)
    ensures b.row == r
    ensures b.detail == SkinTypesLine <==> r.Fallback?
  {
    Block(r, if r.Primary? then IngredientsLine else SkinTypesLine)
  }

  /** What the box shows for an outcome: the error if there is one, else the rows, else the no-match notice. */
  function Render(o: Outcome): Display
  {
    if o.error.Some? && o.error.value != "" then ErrorText(ErrorPrefix + o.error.value)
    else if o.rows == [] then NoMatches
    else Listing(seq(|o.rows|, i requires 0 <= i < |o.rows| => RenderRow(o.rows[i])))
  }

  /** The handler on given field texts. */
  function Respond(skinText: string, concernText: string, budgetText: string, categoryText: string,
                   table: seq<Product>, failure: Option<string>): Response
  {
    match ParseBudget(budgetText)
    case None => InputError(InputErrorMessage)
    case Some(budget) =>
      Shown(Render(Recommendation(table, failure, OrAll(skinText), OrAll(concernText), budget, OrAll(categoryText))))
  }

  /** As written, every row, a fallback row included, is listed with an ingredients line. */
  lemma AsWrittenAlwaysIngredients(r: Row)
    ensures RenderRowAsWritten(r).detail == IngredientsLine
  {
  }

  /** A fallback row shows its skin types in the place the as-written renderer calls ingredients. */
  lemma FallbackRowMislabelled()
    ensures var r := Fallback("x", "Serum", None, ["Oily"]);
      RenderRowAsWritten(r).detail == IngredientsLine && RenderRow(r).detail == SkinTypesLine
  {
  }

  /**
   * A listing shows every row of the outcome, in order, and only those; a
   * failed query shows its message and no rows; an empty answer shows the
   * no-match notice.
   */
  lemma RenderShowsOutcome(o: Outcome)
    requires o.error == None || o.error.value != ""
    ensures o.error.Some? ==> Render(o) == ErrorText(ErrorPrefix + o.error.value)
    ensures o.error.None? && o.rows == [] ==> Render(o) == NoMatches
    ensures o.error.None? && o.rows != [] ==> Render(o).Listing? && |Render(o).blocks| == |o.rows|
    ensures o.error.None? && o.rows != [] ==>
      forall i :: 0 <= i < |o.rows| ==> Render(o).blocks[i] == RenderRow(o.rows[i])
  {
  }

  /** An unparsable budget raises the input-error dialog and nothing is queried. */
  lemma InvalidBudgetRaisesDialog(skinText: string, concernText: string, budgetText: string, categoryText: string,
                                  table: seq<Product>, failure: Option<string>)
    requires ParseBudget(budgetText) == None
    ensures Respond(skinText, concernText, budgetText, categoryText, table, failure) == InputError(InputErrorMessage)
  {
  }

  /** A failed query is shown as an error line, never as a listing or a no-match notice. */
  lemma FailedQueryShowsError(skinText: string, concernText: string, budgetText: string, categoryText: string,
                              table: seq<Product>, failure: Option<string>)
    requires ParseBudget(budgetText).Some?
    requires failure.Some?
    ensures Respond(skinText, concernText, budgetText, categoryText, table, failure).Shown?
    ensures Respond(skinText, concernText, budgetText, categoryText, table, failure).display.ErrorText?
  {
    var budget := ParseBudget(budgetText).value;
    var o := Recommendation(table, failure, OrAll(skinText), OrAll(concernText), budget, OrAll(categoryText));
    var q := BuildQuery(OrAll(skinText), OrAll(concernText), budget, OrAll(categoryText));
    assert ExecutionError(q, failure).Some?;
    QueryFailureSkipsFallback(table, failure, OrAll(skinText), OrAll(concernText), budget, OrAll(categoryText));
  }

  /** Empty fields mean "All" on every dimension and no budget limit. */
  lemma EmptyFormIsUnfiltered(table: seq<Product>, failure: Option<string>)
    ensures Respond("", "", "", "", table, failure) ==
      Shown(Render(Recommendation(table, failure, "All", "All", 99999, "All")))
  {
  }

  /** The budget the form opens with. */
  lemma InitialBudget()
    ensures ParseBudget("1000") == Some(1000)
  {
    assert NatDigits(1) == "1";
    assert NatDigits(10) == "10";
    assert NatDigits(100) == "100";
    assert NatDigits(1000) == "1000";
    BudgetRoundTrip(1000);
  }

  /**
   * With "All" selected everywhere and a budget of at least 700, the seeded
   * table lists all six sample products, each with its ingredients. The
   * form opens in this state: see `InitialBudget`.
   */
  lemma SampleListedInFull(budgetText: string)
    requires ParseBudget(budgetText).Some?
    requires 700 <= ParseBudget(budgetText).value <= Int64Max
    ensures var r := Respond("All", "All", budgetText, "All", Sample, None);
      && r.Shown? && r.display.Listing? && |r.display.blocks| == |Sample|
      && forall i :: 0 <= i < |Sample| ==> r.display.blocks[i] == Block(PrimaryRow(Sample[i]), IngredientsLine)
  {
    var budget := ParseBudget(budgetText).value;
    SeededTableUnfiltered(budget);
    var o := Recommendation(Sample, None, "All", "All", budget, "All");
    assert Respond("All", "All", budgetText, "All", Sample, None) == Shown(Render(o));
    RenderShowsOutcome(o);
  }

  /** Fills the result box for an outcome: the error line, the no-match notice, or one block per row. */
  method ShowOutcome(o: Outcome) returns (d: Display)
    ensures d == Render(o)
  {
    if o.error.Some? && o.error.value != "" {
      return ErrorText(ErrorPrefix + o.error.value);
    }
    if o.rows == [] {
      return NoMatches;
    }
    var blocks := [];
    for i := 0 to |o.rows|
      invariant |blocks| == i
      invariant forall j :: 0 <= j < i ==> blocks[j] == RenderRow(o.rows[j])
    {
      blocks := blocks + [RenderRow(o.rows[i])];
    }
    d := Listing(blocks);
  }

  /** The application window: the four form fields and the result box. */
  class Window {
    var skinField: string
    var concernField: string
    var budgetField: string
    var categoryField: string
    var box: Display

    /** The form as it opens: "All", "All", "1000", "All", and an empty result box. */
    constructor ()
      ensures skinField == "All" && concernField == "All" && budgetField == "1000" && categoryField == "All"
      ensures box == Blank
    {
      skinField := "All";
      concernField := "All";
      budgetField := "1000";
      categoryField := "All";
      box := Blank;
    }

    /**
     * `show_recommendations`: an unparsable budget raises the dialog and
     * leaves the box as it was; otherwise the box is cleared and shows the
     * outcome of the request.
     */
    method ShowRecommendations(table: seq<Product>, failure: Option<string>) returns (dialog: Option<string>)
      modifies this
      ensures skinField == old(skinField) && concernField == old(concernField)
      ensures budgetField == old(budgetField) && categoryField == old(categoryField)
      ensures match Respond(skinField, concernField, budgetField, categoryField, table, failure)
              case InputError(m) => dialog == Some(m) && box == old(box)
              case Shown(d) => dialog == None && box == d
    {
      var parsed := ParseBudget(budgetField);
      if parsed.None? {
        return Some(InputErrorMessage);
      }
      box := Blank;
      var rows, err := Recommend(table, failure, OrAll(skinField), OrAll(concernField), parsed.value, OrAll(categoryField));
      box := ShowOutcome(Outcome(rows, err));
      dialog := None;
    }
  }
}
