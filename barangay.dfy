/**
 * The barangays of one district (`barangaytbl`), scoped by the `district_id`
 * query parameter converted with `Number`.
 */
module Barangay {
  import opened Wrappers
  import opened JsText
  import opened ListView
  import Search
  import Routing

  datatype Row = Row(barangay_id: string, barangay: string, district_id: string, created_at: Option<string>)

  function Fields(r: Row): seq<string> {
    [Lower(r.barangay_id), Lower(r.barangay)]
  }

  const Rules: Policy<Row> := Policy(
    NewParentClearItems,
    FetchRule(true, None, "Failed to load barangays", false),
    DeleteRule("barangay_id", (r: Row) => r.barangay_id, None, false, ToastInFinally,
               (r: Row) => r.barangay + " deleted successfully!",
               "Failed to delete barangay", false),
    RefetchAndToast("Barangay created successfully!", true, false, false),
    RefetchAndToast("Barangay updated successfully!", true, true, false),
    AddNeedsParent,
    EditSelected,
    Fields)

  /**
   * The key the URL effect stores: `Number(id)` for a non-empty parameter, else
   * null.  `toNumber` is JavaScript's `Number` on text.
   */
  function DistrictKey(query: Routing.Query, toNumber: string -> JsNumber): (k: Scalar)
    ensures var id := Routing.Get(query, "district_id");
      k == if id.Some? && id.value != "" then Number(toNumber(id.value)) else Null
  {
    var id := Routing.Get(query, "district_id");
    if id.Some? && id.value != "" then Number(toNumber(id.value)) else Null
  }

  /** A district_id that converts to 0 or NaN counts as absent: no fetch runs and Add is disabled. */
  lemma ZeroOrNaNIsAbsent(v: View<Row>, query: Routing.Query, toNumber: string -> JsNumber, r: Fetched<Row>)
    requires var k := DistrictKey(query, toNumber); k == Number(NaN) || k == Number(Num(0.0))
    ensures var k := DistrictKey(query, toNumber);
      && Navigate(Rules, v, k, r) == v.(parent := k, selected := None, search := "", items := [])
      && !Enabled(Rules, Navigate(Rules, v, k, r), Add)
  {
  }

  /** Only a district that converts to a non-zero number is fetched. */
  lemma FetchesNonZero(v: View<Row>, query: Routing.Query, toNumber: string -> JsNumber, r: Fetched<Row>)
    requires r.Rows? && DistrictKey(query, toNumber) != v.parent
    ensures Navigate(Rules, v, DistrictKey(query, toNumber), r).items == r.data.GetOr([])
        <==> (r.data.GetOr([]) == [] || Truthy(DistrictKey(query, toNumber)))
  {
  }

  lemma SearchMatches(v: View<Row>, x: Row)
    ensures x in Displayed(Rules, v)
        <==> x in v.items
             && (IsBlank(v.search)
                 || Contains(Lower(x.barangay_id), Lower(v.search))
                 || Contains(Lower(x.barangay), Lower(v.search)))
  {
    Search.FilterSpec(v.items, v.search, Fields, x);
    assert Search.AnyContains(Fields(x), Lower(v.search))
       <==> Contains(Fields(x)[0], Lower(v.search)) || Contains(Fields(x)[1], Lower(v.search));
  }

  /** The delete is keyed by barangay_id alone; the toast is raised in `finally`, on both outcomes. */
  lemma DeleteKeyed(v: View<Row>, o: Outcome, r: Fetched<Row>)
    requires v.selected.Some?
    ensures var d := ConfirmDelete(Rules, v, o, r);
      && d.request == Some([Eq("barangay_id", Str(v.selected.value.barangay_id))])
      && !d.view.confirmOpen && d.view.showToast
      && (o.Done? && r.Rows? ==> d.view.selected.None?
                                 && d.view.toastMessage == v.selected.value.barangay + " deleted successfully!")
      && (o.Failed? ==> d.view.isError && d.view.toastMessage == "Failed to delete barangay")
  {
    match o
    case Failed(m) =>
      IssuedDeleteFailed(Rules, v, m, r);
    case Done =>
      IssuedDeleteDone(Rules, v, r);
      SucceededFacts(Rules, Rules.delete.style, v.(loading := true), Rules.delete.successMessage(v.selected.value), r);
  }

  /** The create callback closes the create modal; the update callback closes its modal and clears the selection. */
  lemma Callbacks(v: View<Row>, r: Fetched<Row>)
    ensures var c := AfterSave(Rules, Rules.onCreated, v, r, true);
      !c.createOpen && c.selected == v.selected && c.showToast
    ensures var u := AfterSave(Rules, Rules.onUpdated, v, r, false);
      !u.updateOpen && u.selected.None? && u.showToast
  {
  }

  lemma Toolbar(v: View<Row>)
    ensures Enabled(Rules, v, Add) <==> Truthy(v.parent)
    ensures Enabled(Rules, v, Edit) <==> v.selected.Some?
    ensures Enabled(Rules, v, Delete) <==> v.selected.Some?
  {
  }
}
