/**
 * The subclasses of one classification (`subclasstbl`), scoped by the
 * `class_id` query parameter.  The URL effect keeps the rows it had.
 */
module Subclass {
  import opened Wrappers
  import opened JsText
  import opened ListView
  import Search
  import ListScreen
  import Routing
  import Classification

  datatype Row = Row(subclass_id: string, subclass: string, class_id: string,
                     barangay_id: Option<string>, created_at: string)

  function Fields(r: Row): seq<string> {
    [Lower(r.subclass_id), Lower(r.subclass)]
  }

  const Rules: Policy<Row> := Policy(
    NewParentKeepItems,
    FetchRule(true, None, "Failed to load subclasses", false),
    DeleteRule("subclass_id", (r: Row) => r.subclass_id, None, false, AwaitRefetch(false),
               (r: Row) => "Subclass deleted successfully!",
               "Failed to delete subclass", false),
    RefetchAndToast("Subclass created successfully!", false, false, false),
    RefetchAndToast("Subclass updated successfully!", true, false, false),
    AddNeedsParent,
    EditSelected,
    Fields)

  /** `${classId}` in a template: the text itself, or "null". */
  function KeyText(k: Scalar): (s: string)
    requires !k.Number?
    ensures k.Str? ==> s == k.text
    ensures k.Null? ==> s == "null"
  {
    if k.Str? then k.text else "null"
  }

  /**
   * `handleRate`: the rates of the selected subclass, carrying the current
   * class_id on to the rate screen (a null key as the text "null").
   */
  function RateTarget(selected: Option<Row>, classId: Scalar, electron: bool): (t: Option<Routing.Target<Row>>)
    requires !classId.Number?
    ensures t.Some? <==> selected.Some?
    ensures t.Some? ==> (t.value.path == "/menu/home/subclassrate" && t.value.state.None?
                         && Routing.Get(t.value.query, "subclass_id") == Some(selected.value.subclass_id)
                         && Routing.Get(t.value.query, "class_id") == Some(KeyText(classId)))
  {
    match selected
    case None => None
    case Some(row) =>
      Some(Routing.Go(electron, "/menu/home/subclassrate",
                      [("subclass_id", row.subclass_id), ("class_id", KeyText(classId))], None))
  }

  /** A URL change keeps the rows: only key, selection and search change, and a falsy key fetches nothing. */
  lemma NewKeyKeepsRows(v: View<Row>, key: Scalar, r: Fetched<Row>)
    requires !Truthy(key)
    ensures Navigate(Rules, v, key, r) == v.(parent := key, selected := None, search := "")
  {
  }

  lemma SearchMatches(v: View<Row>, x: Row)
    ensures x in Displayed(Rules, v)
        <==> x in v.items
             && (IsBlank(v.search)
                 || Contains(Lower(x.subclass_id), Lower(v.search))
                 || Contains(Lower(x.subclass), Lower(v.search)))
  {
    Search.FilterSpec(v.items, v.search, Fields, x);
    assert Search.AnyContains(Fields(x), Lower(v.search))
       <==> Contains(Fields(x)[0], Lower(v.search)) || Contains(Fields(x)[1], Lower(v.search));
  }

  /** The delete is keyed by subclass_id alone, without the class. */
  lemma DeleteKeyed(v: View<Row>, o: Outcome, r: Fetched<Row>)
    requires v.selected.Some?
    ensures var d := ConfirmDelete(Rules, v, o, r);
      && d.request == Some([Eq("subclass_id", Str(v.selected.value.subclass_id))])
      && (o.Done? ==> d.view.selected.None? && d.view.toastMessage == "Subclass deleted successfully!")
      && (o.Failed? ==> d.view.isError && d.view.toastMessage == "Failed to delete subclass")
  {
    match o
    case Failed(m) =>
      IssuedDeleteFailed(Rules, v, m, r);
    case Done =>
      IssuedDeleteDone(Rules, v, r);
      SucceededFacts(Rules, Rules.delete.style, v.(loading := true), Rules.delete.successMessage(v.selected.value), r);
  }

  /** The create callback leaves the create modal open; the update callback closes its modal but keeps the selection. */
  lemma Callbacks(v: View<Row>, r: Fetched<Row>)
    ensures var c := AfterSave(Rules, Rules.onCreated, v, r, true);
      c.createOpen == v.createOpen && c.showToast
    ensures var u := AfterSave(Rules, Rules.onUpdated, v, r, false);
      !u.updateOpen && u.selected == v.selected && u.showToast
  {
  }

  lemma Toolbar(v: View<Row>, electron: bool)
    requires !v.parent.Number?
    ensures Enabled(Rules, v, Add) <==> Truthy(v.parent)
    ensures Enabled(Rules, v, Edit) <==> v.selected.Some?
    ensures Enabled(Rules, v, Delete) <==> v.selected.Some?
    ensures RateTarget(v.selected, v.parent, electron).Some? <==> v.selected.Some?
  {
  }

  /**
   * Classification's subclass action keys this screen by the selected class_id and
   * fetches its subclasses; the router state it passes is never read here.  An
   * empty class_id is a falsy key: nothing is fetched and the list stays empty.
   */
  method FromClassification(row: Classification.Row, electron: bool, r: Fetched<Row>)
    returns (key: Scalar, shown: seq<Row>)
    ensures key == Str(row.class_id)
    ensures row.class_id != "" && r.Rows? ==> shown == r.data.GetOr([])
    ensures row.class_id == "" ==> shown == []
  {
    var target := Classification.SubclassTarget(Some(row), electron);
    var s := new ListScreen.Screen(Rules);
    s.Navigate(ListView.FromQuery(Routing.Get(target.value.query, "class_id")), r);
    key := s.parent;
    shown := Displayed(Rules, s.State());
  }
}
