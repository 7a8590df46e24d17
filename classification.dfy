/**
 * The classifications (`classtbl`).  Delete first counts the subclasses of the
 * selected classification and opens either the confirmation or a "cannot
 * delete" alert.
 */
module Classification {
  import opened Wrappers
  import opened JsText
  import opened ListView
  import Search
  import ListScreen
  import Routing

  datatype Row = Row(class_id: string, classification: string, created_at: Option<string>)

  function Fields(r: Row): seq<string> {
    [Lower(r.class_id), Lower(r.classification)]
  }

  /**
   * The delete button of the toolbar is `Screen.DeleteClick` below, not
   * `ListView.Press(Delete)`: the confirmation opens only after the usage check.
   */
  const Rules: Policy<Row> := Policy(
    ClearSelectionAndSearch,
    FetchRule(false, None, "Failed to load classifications", false),
    DeleteRule("class_id", (r: Row) => r.class_id, None, false, AwaitRefetch(false),
               (r: Row) => r.classification + " deleted successfully!",
               "Failed to delete classification", false),
    Refetch,
    Refetch,
    AddAlways,
    EditSelected,
    Fields)

  /** What the `count: 'exact', head: true` query on `subclasstbl` gave: a count (possibly null), or an exception. */
  datatype UsageResult = Counted(count: Option<int>) | Threw

  /** `checkIfClassificationIsUsed`: `(count || 0) > 0`, and `true` when the query threw. */
  function IsUsed(u: UsageResult): (used: bool)
    ensures u.Threw? ==> used
    ensures u.Counted? && u.count.None? ==> !used
    ensures u.Counted? && u.count.Some? ==> (used <==> u.count.value > 0)
  {
    match u
    case Threw => true
    case Counted(c) => c.GetOr(0) > 0
  }

  /**
   * `handleDeleteClick` on the list state and the "cannot delete" flag: with a
   * selection, exactly one of the two alerts is raised; the spinner is off again
   * in `finally`.  (The `catch` of the handler is unreachable: the check never throws.)
   */
  function DeleteClicked(v: View<Row>, cannotDelete: bool, u: UsageResult): (r: (View<Row>, bool))
    ensures v.selected.None? ==> r == (v, cannotDelete)
    ensures v.selected.Some? ==>
      && r.0 == v.(loading := false, confirmOpen := v.confirmOpen || !IsUsed(u))
      && r.1 == (cannotDelete || IsUsed(u))
  {
    if v.selected.None? then (v, cannotDelete)
    else if IsUsed(u) then (v.(loading := false), true)
    else (v.(loading := false, confirmOpen := true), cannotDelete)
  }

  class Screen {
    const list: ListScreen.Screen<Row>
    var cannotDeleteOpen: bool

    constructor ()
      ensures fresh(list) && list.policy == Rules && list.State() == Initial() && !cannotDeleteOpen
    {
      list := new ListScreen.Screen(Rules);
      cannotDeleteOpen := false;
    }

    method DeleteClick(u: UsageResult)
      modifies this, list
      ensures (list.State(), cannotDeleteOpen) == DeleteClicked(old(list.State()), old(cannotDeleteOpen), u)
    {
      if list.selected.None? {
        return;
      }
      list.loading := true;
      if IsUsed(u) {
        cannotDeleteOpen := true;
      } else {
        list.confirmOpen := true;
      }
      list.loading := false;
    }

    /** The "Cannot Delete" alert's OK button: an empty handler, then `onClose`. */
    method CannotDeleteOk()
      modifies this
      ensures !cannotDeleteOpen
    {
      cannotDeleteOpen := false;
    }
  }

  /** A classification with subclasses, or one whose check failed, never reaches the confirmation. */
  lemma UsedOpensNoConfirm(v: View<Row>, u: UsageResult, o: Outcome, r: Fetched<Row>)
    requires v.selected.Some? && !v.confirmOpen && IsUsed(u)
    ensures var c := DeleteClicked(v, false, u);
      c.1 && !c.0.confirmOpen && Step(Rules, c.0, Confirmed(o, r)) == c.0
  {
  }

  /** With a selection and no alert open, exactly one alert opens. */
  lemma ExactlyOneAlert(v: View<Row>, u: UsageResult)
    requires v.selected.Some? && !v.confirmOpen
    ensures var c := DeleteClicked(v, false, u);
      (c.0.confirmOpen || c.1) && !(c.0.confirmOpen && c.1) && !c.0.loading
  {
  }

  lemma SearchMatches(v: View<Row>, x: Row)
    ensures x in Displayed(Rules, v)
        <==> x in v.items
             && (IsBlank(v.search)
                 || Contains(Lower(x.class_id), Lower(v.search))
                 || Contains(Lower(x.classification), Lower(v.search)))
  {
    Search.FilterSpec(v.items, v.search, Fields, x);
    assert Search.AnyContains(Fields(x), Lower(v.search))
       <==> Contains(Fields(x)[0], Lower(v.search)) || Contains(Fields(x)[1], Lower(v.search));
  }

  /** The delete is keyed by class_id; its messages name the classification. */
  lemma DeleteKeyed(v: View<Row>, o: Outcome, r: Fetched<Row>)
    requires v.selected.Some?
    ensures var d := ConfirmDelete(Rules, v, o, r);
      && d.request == Some([Eq("class_id", Str(v.selected.value.class_id))])
      && !d.view.confirmOpen && d.view.showToast
      && (o.Done? ==> d.view.selected.None?
                      && d.view.toastMessage == v.selected.value.classification + " deleted successfully!")
      && (o.Failed? ==> d.view.isError && d.view.toastMessage == "Failed to delete classification")
  {
    match o
    case Failed(m) =>
      IssuedDeleteFailed(Rules, v, m, r);
    case Done =>
      IssuedDeleteDone(Rules, v, r);
      SucceededFacts(Rules, Rules.delete.style, v.(loading := true), Rules.delete.successMessage(v.selected.value), r);
  }

  /** The modals' callbacks are the fetch itself: no toast, no modal closed, selection kept. */
  lemma CallbacksOnlyRefetch(v: View<Row>, r: Fetched<Row>)
    ensures AfterSave(Rules, Rules.onCreated, v, r, true) == Fetch(Rules, v, r)
    ensures AfterSave(Rules, Rules.onUpdated, v, r, false).selected == v.selected
    ensures AfterSave(Rules, Rules.onUpdated, v, r, false).updateOpen == v.updateOpen
  {
    FetchFlags(Rules, v, r);
  }

  function SubclassTarget(selected: Option<Row>, electron: bool): (t: Option<Routing.Target<Row>>)
    ensures t.Some? <==> selected.Some?
    ensures t.Some? ==> (t.value.path == "/menu/home/subclass"
                         && Routing.Get(t.value.query, "class_id") == Some(selected.value.class_id))
    ensures t.Some? && !electron ==> t.value.state == Some(selected.value.(created_at := None))
  {
    match selected
    case None => None
    case Some(row) =>
      Some(Routing.Go(electron, "/menu/home/subclass", [("class_id", row.class_id)],
                      Some(Row(row.class_id, row.classification, None))))
  }

  function ActualUsedTarget(selected: Option<Row>, electron: bool): (t: Option<Routing.Target<Row>>)
    ensures t.Some? <==> selected.Some?
    ensures t.Some? ==> (t.value.path == "/menu/home/actualused"
                         && Routing.Get(t.value.query, "class_id") == Some(selected.value.class_id))
    ensures t.Some? && !electron ==> t.value.state == Some(selected.value.(created_at := None))
  {
    match selected
    case None => None
    case Some(row) =>
      Some(Routing.Go(electron, "/menu/home/actualused", [("class_id", row.class_id)],
                      Some(Row(row.class_id, row.classification, None))))
  }

  lemma Toolbar(v: View<Row>, electron: bool)
    ensures Enabled(Rules, v, Add)
    ensures Enabled(Rules, v, Edit) <==> v.selected.Some?
    ensures SubclassTarget(v.selected, electron).Some? <==> v.selected.Some?
    ensures ActualUsedTarget(v.selected, electron).Some? <==> v.selected.Some?
    ensures DeleteClicked(v, false, Threw).1 <==> v.selected.Some?
  {
  }
}
