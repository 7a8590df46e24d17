/** The structure types (`structure_typetbl`), from which the building codes and components are reached. */
module Structure {
  import opened Wrappers
  import opened JsText
  import opened ListView
  import Search
  import ListScreen
  import Routing

  datatype Row = Row(structure_code: string, description: string, eff_date: string, created_at: Option<string>)

  function Fields(r: Row): seq<string> {
    [Lower(r.structure_code), Lower(r.description), Lower(r.eff_date)]
  }

  const Rules: Policy<Row> := Policy(
    ClearSelectionAndSearch,
    FetchRule(false, None, "Failed to load structures", false),
    DeleteRule("structure_code", (r: Row) => r.structure_code, None, false, ToastInFinally,
               (r: Row) => r.description + " deleted successfully!",
               "Failed to delete structure", false),
    RefetchAndToast("Structure created successfully!", true, false, false),
    RefetchAndToast("Structure updated successfully!", true, true, false),
    AddAlways,
    EditSelected,
    Fields)

  /** A pathname change clears selection and search and keeps the rows. */
  lemma PathChangeKeepsRows(v: View<Row>, key: Scalar, r: Fetched<Row>)
    ensures Navigate(Rules, v, key, r) == v.(selected := None, search := "")
  {
  }

  /** A row is shown exactly when its code, description or effective date contains the lower-cased term. */
  lemma SearchMatches(v: View<Row>, x: Row)
    ensures x in Displayed(Rules, v)
        <==> x in v.items
             && (IsBlank(v.search)
                 || Contains(Lower(x.structure_code), Lower(v.search))
                 || Contains(Lower(x.description), Lower(v.search))
                 || Contains(Lower(x.eff_date), Lower(v.search)))
  {
    Search.FilterSpec(v.items, v.search, Fields, x);
    var t := Lower(v.search);
    assert Search.AnyContains(Fields(x), t)
       <==> Contains(Fields(x)[0], t) || Contains(Fields(x)[1], t) || Contains(Fields(x)[2], t);
  }

  /**
   * The delete is keyed by structure_code; the toast is raised in `finally`, so it
   * shows on both outcomes, and a success clears the selection.
   */
  lemma DeleteKeyed(v: View<Row>, o: Outcome, r: Fetched<Row>)
    requires v.selected.Some?
    ensures var d := ConfirmDelete(Rules, v, o, r);
      && d.request == Some([Eq("structure_code", Str(v.selected.value.structure_code))])
      && !d.view.confirmOpen && d.view.showToast
      && (o.Done? ==> d.view.selected.None?)
      && (o.Failed? ==> d.view.isError && d.view.toastMessage == "Failed to delete structure")
  {
    match o
    case Failed(m) =>
      IssuedDeleteFailed(Rules, v, m, r);
    case Done =>
      IssuedDeleteDone(Rules, v, r);
      SucceededFacts(Rules, Rules.delete.style, v.(loading := true), Rules.delete.successMessage(v.selected.value), r);
  }

  /** A failing refetch after a successful delete replaces the success toast: the refetch is not awaited. */
  lemma RefetchFailureWins(v: View<Row>, m: string)
    requires v.selected.Some?
    ensures ConfirmDelete(Rules, v, Done, FetchError(m)).view.toastMessage == "Failed to load structures"
  {
  }

  /** Add and the building-component action are always enabled; edit, delete and building-code need a selection. */
  lemma Toolbar(v: View<Row>, electron: bool)
    ensures Enabled(Rules, v, Add)
    ensures Enabled(Rules, v, Edit) <==> v.selected.Some?
    ensures Enabled(Rules, v, Delete) <==> v.selected.Some?
    ensures ConstructTarget(v.selected, electron).Some? <==> v.selected.Some?
  {
  }

  /** `handleConstructClick`: the building codes of the selected structure; nothing without a selection. */
  function ConstructTarget(selected: Option<Row>, electron: bool): (t: Option<Routing.Target<Row>>)
    ensures t.Some? <==> selected.Some?
    ensures t.Some? ==> (t.value.path == "/menu/home/buildingcode"
                         && Routing.Get(t.value.query, "structure_code") == Some(selected.value.structure_code))
    ensures t.Some? && !electron ==> t.value.state == selected
  {
    match selected
    case None => None
    case Some(row) =>
      Some(Routing.Go(electron, "/menu/home/buildingcode", [("structure_code", row.structure_code)], Some(row)))
  }

  /** `handleConstructClick`, with the Electron-mode write of the row to the 'structureData' slot. */
  method ConstructClick(s: ListScreen.Screen<Row>, slot: Routing.Slot<Row>, electron: bool)
    returns (target: Option<Routing.Target<Row>>)
    modifies slot
    ensures target == ConstructTarget(s.selected, electron)
    ensures slot.content == if electron && s.selected.Some? then Some(Routing.Json(s.selected.value))
                            else old(slot.content)
  {
    if s.selected.None? {
      return None;
    }
    target := ConstructTarget(s.selected, electron);
    if electron {
      slot.Write(s.selected.value);
    }
  }

  /** `handleCubeOutlineClick`: the building components, whatever is selected. */
  function CubeOutlineTarget(electron: bool): (t: Routing.Target<Row>)
    ensures t.path == "/menu/home/buildingcom" && t.query == [] && t.state.None?
  {
    Routing.Go(electron, "/menu/home/buildingcom", [], None)
  }
}
