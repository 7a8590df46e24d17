/**
 * The tax rates of one district (`taxratetbl`), scoped by the `district_id`
 * query parameter.  Unlike the other scoped screens, its fetch raises an error
 * toast when called without a key.
 */
module Taxrate {
  import opened Wrappers
  import opened JsText
  import opened ListView
  import Search

  datatype Row = Row(tax_rate_id: string, effective_year: Option<string>, rate_percent: Option<string>,
                     created_at: Option<string>)

  function Fields(r: Row): seq<string> {
    [Lower(r.tax_rate_id), Lower(r.effective_year.GetOr("")), Lower(r.rate_percent.GetOr(""))]
  }

  const Rules: Policy<Row> := Policy(
    NewParentClearItems,
    FetchRule(true, Some("District ID is missing"), "Failed to load tax rates", false),
    DeleteRule("tax_rate_id", (r: Row) => r.tax_rate_id, None, false, AwaitRefetch(true),
               (r: Row) => "Tax rate deleted successfully",
               "Failed to delete tax rate", false),
    Refetch,
    Refetch,
    AddNeedsParent,
    EditSelected,
    Fields)

  /** What the table area shows: the table, or a notice when no row is displayed. */
  datatype Body = Table(rows: seq<Row>) | Notice(text: string)

  function Content(v: View<Row>): (b: Body)
    ensures b.Table? <==> |Displayed(Rules, v)| > 0
    ensures b.Table? ==> b.rows == Displayed(Rules, v)
    ensures b.Notice? ==> b.text == if v.loading then "Loading..." else "No tax rates found for this district"
  {
    var shown := Displayed(Rules, v);
    if |shown| > 0 then Table(shown)
    else if v.loading then Notice("Loading...")
    else Notice("No tax rates found for this district")
  }

  /** Calling the fetch without a district raises the error toast, ends loading and issues no query. */
  lemma MissingDistrict(v: View<Row>, r: Fetched<Row>)
    requires !Truthy(v.parent)
    ensures Fetch(Rules, v, r)
         == v.(toastMessage := "District ID is missing", isError := true, showToast := true, loading := false)
  {
  }

  /** The URL effects never raise that toast: they fetch only with a district. */
  lemma EffectsNeedDistrict(v: View<Row>, key: Scalar, r: Fetched<Row>)
    requires !Truthy(key)
    ensures Navigate(Rules, v, key, r) == v.(parent := key, selected := None, search := "", items := [])
  {
  }

  /** A district with no tax rates shows the notice once the fetch is over. */
  lemma EmptyDistrictNotice(v: View<Row>, data: Option<seq<Row>>)
    requires Truthy(v.parent) && (data.None? || data == Some([]))
    ensures Content(Fetch(Rules, v, Rows(data))) == Notice("No tax rates found for this district")
  {
    var w := Fetch(Rules, v, Rows(data));
    assert w.items == [];
    Search.FilterSpec(w.items, w.search, Fields, Row("", None, None, None));
    Search.KeepIsSubsequence(w.items, Lower(w.search), Fields);
  }

  lemma SearchMatches(v: View<Row>, x: Row)
    ensures x in Displayed(Rules, v)
        <==> x in v.items
             && (IsBlank(v.search)
                 || Contains(Lower(x.tax_rate_id), Lower(v.search))
                 || Contains(Lower(x.effective_year.GetOr("")), Lower(v.search))
                 || Contains(Lower(x.rate_percent.GetOr("")), Lower(v.search)))
  {
    Search.FilterSpec(v.items, v.search, Fields, x);
    var t := Lower(v.search);
    assert Search.AnyContains(Fields(x), t)
       <==> Contains(Fields(x)[0], t) || Contains(Fields(x)[1], t) || Contains(Fields(x)[2], t);
  }

  lemma DeleteKeyed(v: View<Row>, o: Outcome, r: Fetched<Row>)
    requires v.selected.Some?
    ensures var d := ConfirmDelete(Rules, v, o, r);
      && d.request == Some([Eq("tax_rate_id", Str(v.selected.value.tax_rate_id))])
      && !d.view.confirmOpen && !d.view.loading
      && (o.Done? ==> d.view.selected.None? && !d.view.isError
                      && d.view.toastMessage == "Tax rate deleted successfully")
      && (o.Failed? ==> d.view.isError && d.view.toastMessage == "Failed to delete tax rate")
  {
    match o
    case Failed(m) =>
      IssuedDeleteFailed(Rules, v, m, r);
    case Done =>
      IssuedDeleteDone(Rules, v, r);
      SucceededFacts(Rules, Rules.delete.style, v.(loading := true), Rules.delete.successMessage(v.selected.value), r);
  }

  lemma Toolbar(v: View<Row>)
    ensures Enabled(Rules, v, Add) <==> Truthy(v.parent)
    ensures Enabled(Rules, v, Edit) <==> v.selected.Some?
    ensures Enabled(Rules, v, Delete) <==> v.selected.Some?
  {
  }
}
