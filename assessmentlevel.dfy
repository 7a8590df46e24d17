/**
 * The assessment levels of one kind (`assessmentleveltbl`), scoped by the
 * `kind_id` query parameter.
 */
module AssessmentLevel {
  import opened Wrappers
  import opened JsText
  import opened ListView
  import Search

  /** Numeric columns are carried as their `toString()` text; a searched column may be missing. */
  datatype Row = Row(assessment_level_id: string, kind_id: string, class_id: Option<string>,
                     effective_year: Option<string>, range1: Option<string>, range2: Option<string>,
                     rate_percent: Option<string>, created_at: Option<string>)

  /** Six columns, each lower-cased, a missing one as ''; kind_id is not among them. */
  function Fields(r: Row): seq<string> {
    [Lower(r.assessment_level_id), Lower(r.class_id.GetOr("")), Lower(r.effective_year.GetOr("")),
     Lower(r.range1.GetOr("")), Lower(r.range2.GetOr("")), Lower(r.rate_percent.GetOr(""))]
  }

  const Rules: Policy<Row> := Policy(
    NewParentClearItems,
    FetchRule(true, None, "Failed to load assessment levels", false),
    DeleteRule("assessment_level_id", (r: Row) => r.assessment_level_id, None, false, AwaitRefetch(true),
               (r: Row) => "Assessment level deleted successfully",
               "Failed to delete assessment level", false),
    Refetch,
    Refetch,
    AddNeedsParent,
    EditSelected,
    Fields)

  /** The header: the kind is named when kind_id is non-empty. */
  function Title(kindId: Scalar): (t: string)
    ensures Truthy(kindId) && kindId.Str? ==> t == "Assessment Levels - Kind " + kindId.text
    ensures !Truthy(kindId) ==> t == "Assessment Levels"
  {
    if kindId.Str? && kindId.text != "" then "Assessment Levels - Kind " + kindId.text
    else "Assessment Levels"
  }

  lemma ResetClears(v: View<Row>, key: Scalar)
    ensures Reset(Rules, v, key) == v.(parent := key, selected := None, search := "", items := [])
  {
  }

  lemma NoFetchWithoutKey(v: View<Row>, key: Scalar, r: Fetched<Row>)
    requires !Truthy(key)
    ensures Navigate(Rules, v, key, r) == Reset(Rules, v, key)
    ensures !Truthy(v.parent) ==> Fetch(Rules, v, r) == v
  {
  }

  lemma SearchMatches(v: View<Row>, x: Row)
    ensures x in Displayed(Rules, v)
        <==> x in v.items
             && (IsBlank(v.search) || exists k | 0 <= k < 6 :: Contains(Fields(x)[k], Lower(v.search)))
  {
    Search.FilterSpec(v.items, v.search, Fields, x);
  }

  /** Rows that differ only in kind_id are shown or hidden together: kind_id is never searched. */
  lemma KindNotSearched(v: View<Row>, x: Row, k: string)
    requires x in v.items && x.(kind_id := k) in v.items
    ensures x in Displayed(Rules, v) <==> x.(kind_id := k) in Displayed(Rules, v)
  {
    var y := x.(kind_id := k);
    assert Fields(x) == Fields(y);
    Search.FilterSpec(v.items, v.search, Fields, x);
    Search.FilterSpec(v.items, v.search, Fields, y);
  }

  /**
   * The delete is keyed by assessment_level_id alone; success clears the
   * selection and the error flag after the refetch; both outcomes close the
   * confirmation and end with the spinner off.
   */
  lemma DeleteKeyed(v: View<Row>, o: Outcome, r: Fetched<Row>)
    requires v.selected.Some?
    ensures var d := ConfirmDelete(Rules, v, o, r);
      && d.request == Some([Eq("assessment_level_id", Str(v.selected.value.assessment_level_id))])
      && !d.view.confirmOpen && !d.view.loading && d.view.showToast
      && (o.Done? ==> d.view.selected.None? && !d.view.isError
                      && d.view.toastMessage == "Assessment level deleted successfully")
      && (o.Failed? ==> d.view.isError && d.view.toastMessage == "Failed to delete assessment level")
  {
    match o
    case Failed(m) =>
      IssuedDeleteFailed(Rules, v, m, r);
    case Done =>
      IssuedDeleteDone(Rules, v, r);
      SucceededFacts(Rules, Rules.delete.style, v.(loading := true), Rules.delete.successMessage(v.selected.value), r);
  }

  /** A failing refetch after a successful delete is hidden: its toast and error flag are overwritten. */
  lemma RefetchFailureHidden(v: View<Row>, m: string)
    requires v.selected.Some? && Truthy(v.parent)
    ensures var d := ConfirmDelete(Rules, v, Done, FetchError(m)).view;
      !d.isError && d.toastMessage == "Assessment level deleted successfully" && d.items == v.items
  {
  }

  lemma Toolbar(v: View<Row>)
    ensures Enabled(Rules, v, Add) <==> Truthy(v.parent)
    ensures Enabled(Rules, v, Edit) <==> v.selected.Some?
    ensures Enabled(Rules, v, Delete) <==> v.selected.Some?
  {
  }
}
