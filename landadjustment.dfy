/** The land adjustments (`landadjustmenttbl`): the one screen whose callbacks clear the error flag. */
module LandAdjustment {
  import opened Wrappers
  import opened JsText
  import opened ListView
  import Search

  datatype Row = Row(adjustment_id: string, description: string, adjustment_factor: string,
                     adjustment_type: string, created_at: Option<string>)

  function Fields(r: Row): seq<string> {
    [Lower(r.adjustment_id), Lower(r.description), Lower(r.adjustment_factor), Lower(r.adjustment_type)]
  }

  const Rules: Policy<Row> := Policy(
    ClearSelectionAndSearch,
    FetchRule(false, None, "Failed to load land adjustments", false),
    DeleteRule("adjustment_id", (r: Row) => r.adjustment_id, None, false, AwaitRefetch(true),
               (r: Row) => "Land adjustment deleted successfully",
               "Failed to delete land adjustment", false),
    RefetchAndToast("Land adjustment created successfully", true, false, true),
    RefetchAndToast("Land adjustment updated successfully", true, true, true),
    AddAlways,
    EditSelected,
    Fields)

  lemma PathChangeKeepsRows(v: View<Row>, key: Scalar, r: Fetched<Row>)
    ensures Navigate(Rules, v, key, r) == v.(selected := None, search := "")
  {
  }

  lemma SearchMatches(v: View<Row>, x: Row)
    ensures x in Displayed(Rules, v)
        <==> x in v.items
             && (IsBlank(v.search) || exists k | 0 <= k < 4 :: Contains(Fields(x)[k], Lower(v.search)))
  {
    Search.FilterSpec(v.items, v.search, Fields, x);
  }

  lemma DeleteKeyed(v: View<Row>, o: Outcome, r: Fetched<Row>)
    requires v.selected.Some?
    ensures var d := ConfirmDelete(Rules, v, o, r);
      && d.request == Some([Eq("adjustment_id", Str(v.selected.value.adjustment_id))])
      && !d.view.confirmOpen && !d.view.loading
      && (o.Done? ==> d.view.selected.None? && !d.view.isError
                      && d.view.toastMessage == "Land adjustment deleted successfully")
      && (o.Failed? ==> d.view.isError && d.view.toastMessage == "Failed to delete land adjustment")
  {
    match o
    case Failed(m) =>
      IssuedDeleteFailed(Rules, v, m, r);
    case Done =>
      IssuedDeleteDone(Rules, v, r);
      SucceededFacts(Rules, Rules.delete.style, v.(loading := true), Rules.delete.successMessage(v.selected.value), r);
  }

  /**
   * Both callbacks clear the error flag before their unawaited refetch, so the
   * flag ends raised exactly when that refetch fails; only the update callback
   * clears the selection.
   */
  lemma Callbacks(v: View<Row>, r: Fetched<Row>)
    ensures var c := AfterSave(Rules, Rules.onCreated, v, r, true);
      !c.createOpen && c.selected == v.selected && (c.isError <==> r.FetchError?)
    ensures var u := AfterSave(Rules, Rules.onUpdated, v, r, false);
      !u.updateOpen && u.selected.None? && (u.isError <==> r.FetchError?)
  {
  }

  lemma Toolbar(v: View<Row>)
    ensures Enabled(Rules, v, Add)
    ensures Enabled(Rules, v, Edit) <==> v.selected.Some?
    ensures Enabled(Rules, v, Delete) <==> v.selected.Some?
  {
  }
}
