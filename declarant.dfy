/** The declarants, read from the forms (`formtbl`); forms can be edited and deleted, not created. */
module Declarant {
  import opened Wrappers
  import opened JsText
  import opened ListView
  import Search

  datatype Row = Row(form_id: string, declarant: string, created_at: Option<string>,
                     status: Option<string>, class_id: Option<string>)

  /** Only the declarant and the form id are searched. */
  function Fields(r: Row): seq<string> {
    [Lower(r.declarant), Lower(r.form_id)]
  }

  const Rules: Policy<Row> := Policy(
    NoReset,
    FetchRule(false, None, "Failed to load declarants", false),
    DeleteRule("form_id", (r: Row) => r.form_id, None, false, AwaitRefetch(false),
               (r: Row) => "Form with declarant \"" + r.declarant + "\" deleted successfully!",
               "Failed to delete form", false),
    NoCallback,
    Refetch,
    NoAddButton,
    EditSelected,
    Fields)

  lemma SearchMatches(v: View<Row>, x: Row)
    ensures x in Displayed(Rules, v)
        <==> x in v.items
             && (IsBlank(v.search)
                 || Contains(Lower(x.declarant), Lower(v.search))
                 || Contains(Lower(x.form_id), Lower(v.search)))
  {
    Search.FilterSpec(v.items, v.search, Fields, x);
    assert Search.AnyContains(Fields(x), Lower(v.search))
       <==> Contains(Fields(x)[0], Lower(v.search)) || Contains(Fields(x)[1], Lower(v.search));
  }

  /** Status and class are not searched: rows that differ only there are shown or hidden together. */
  lemma StatusNotSearched(v: View<Row>, x: Row, s: Option<string>, c: Option<string>)
    requires x in v.items && x.(status := s, class_id := c) in v.items
    ensures x in Displayed(Rules, v) <==> x.(status := s, class_id := c) in Displayed(Rules, v)
  {
    var y := x.(status := s, class_id := c);
    assert Fields(x) == Fields(y);
    Search.FilterSpec(v.items, v.search, Fields, x);
    Search.FilterSpec(v.items, v.search, Fields, y);
  }

  /** There is no create: the add press does nothing; update and delete need a selection, and delete opens the confirmation. */
  lemma Toolbar(v: View<Row>)
    ensures !Enabled(Rules, v, Add) && Press(Rules, v, Add) == v
    ensures Enabled(Rules, v, Edit) <==> v.selected.Some?
    ensures Enabled(Rules, v, Delete) <==> v.selected.Some?
    ensures Press(Rules, v, Delete).confirmOpen <==> v.selected.Some? || v.confirmOpen
  {
  }

  /** The delete is keyed by form_id; success refetches and clears the selection. */
  lemma DeleteKeyed(v: View<Row>, o: Outcome, r: Fetched<Row>)
    requires v.selected.Some?
    ensures var d := ConfirmDelete(Rules, v, o, r);
      && d.request == Some([Eq("form_id", Str(v.selected.value.form_id))])
      && !d.view.confirmOpen
      && (o.Done? ==> d.view.selected.None?
                      && d.view.toastMessage == "Form with declarant \"" + v.selected.value.declarant + "\" deleted successfully!"
                      && (r.Rows? ==> d.view.items == r.data.GetOr([])))
      && (o.Failed? ==> d.view.isError && d.view.items == v.items && d.view.toastMessage == "Failed to delete form")
  {
    match o
    case Failed(m) =>
      IssuedDeleteFailed(Rules, v, m, r);
    case Done =>
      IssuedDeleteDone(Rules, v, r);
      SucceededFacts(Rules, Rules.delete.style, v.(loading := true), Rules.delete.successMessage(v.selected.value), r);
  }

  /** A failing fetch leaves the list, raises the error toast and ends loading. */
  lemma FetchFailure(v: View<Row>, m: string)
    ensures Fetch(Rules, v, FetchError(m))
         == v.(toastMessage := "Failed to load declarants", isError := true, showToast := true, loading := false)
  {
  }

  /** The screen has no URL effect: navigation changes nothing. */
  lemma NoUrlEffect(v: View<Row>, key: Scalar, r: Fetched<Row>)
    ensures Navigate(Rules, v, key, r) == v
  {
  }
}
