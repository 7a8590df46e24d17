/** The building-component list (`building_componenttbl`), parent of the sub-components. */
module BuildingCom {
  import opened Wrappers
  import opened JsText
  import opened ListView
  import Search
  import ListScreen
  import Routing

  datatype Row = Row(building_com_id: string, description: string, created_at: Option<string>)

  /** The searched columns, both lower-cased. */
  function Fields(r: Row): seq<string> {
    [Lower(r.building_com_id), Lower(r.description)]
  }

  const Rules: Policy<Row> := Policy(
    ClearSelectionAndSearch,
    FetchRule(false, None, "Failed to load building components", true),
    DeleteRule("building_com_id", (r: Row) => r.building_com_id, None, false, AwaitRefetch(false),
               (r: Row) => "Building component deleted successfully!",
               "Failed to delete building component", true),
    RefetchAndToast("Building component created successfully!", true, false, false),
    RefetchAndToast("Building component updated successfully!", true, true, false),
    AddAlways,
    EditSelected,
    Fields)

  /** A pathname change clears selection and search and keeps the fetched rows. */
  lemma PathChangeKeepsRows(v: View<Row>, key: Scalar, r: Fetched<Row>)
    ensures Navigate(Rules, v, key, r) == v.(selected := None, search := "")
  {
  }

  /** A row is shown exactly when its id or its description contains the lower-cased term. */
  lemma SearchMatches(v: View<Row>, x: Row)
    ensures x in Displayed(Rules, v)
        <==> x in v.items
             && (IsBlank(v.search)
                 || Contains(Lower(x.building_com_id), Lower(v.search))
                 || Contains(Lower(x.description), Lower(v.search)))
  {
    Search.FilterSpec(v.items, v.search, Fields, x);
    assert Search.AnyContains(Fields(x), Lower(v.search))
       <==> Contains(Fields(x)[0], Lower(v.search)) || Contains(Fields(x)[1], Lower(v.search));
  }

  /** Add is always enabled; edit, delete and manage need a selection. */
  lemma Toolbar(v: View<Row>)
    ensures Enabled(Rules, v, Add)
    ensures Enabled(Rules, v, Edit) <==> v.selected.Some?
    ensures Enabled(Rules, v, Delete) <==> v.selected.Some?
    ensures ManageTarget(v.selected, false).Some? <==> v.selected.Some?
  {
  }

  /** The delete is keyed by building_com_id alone; success clears the selection after the refetch. */
  lemma DeleteKeyed(v: View<Row>, o: Outcome, r: Fetched<Row>)
    requires v.selected.Some?
    ensures var d := ConfirmDelete(Rules, v, o, r);
      && d.request == Some([Eq("building_com_id", Str(v.selected.value.building_com_id))])
      && !d.view.confirmOpen
      && (o.Done? ==> d.view.selected.None? && d.view.toastMessage == "Building component deleted successfully!")
      && (o.Failed? ==> d.view.isError && d.view.selected == v.selected
                        && d.view.toastMessage == (if o.message != "" then o.message
                                                   else "Failed to delete building component"))
  {
    match o
    case Failed(m) =>
      IssuedDeleteFailed(Rules, v, m, r);
    case Done =>
      IssuedDeleteDone(Rules, v, r);
      SucceededFacts(Rules, Rules.delete.style, v.(loading := true), Rules.delete.successMessage(v.selected.value), r);
  }

  /** Where `handleManageSubcomponents` goes: the sub-component screen of the selected row. */
  function ManageTarget(selected: Option<Row>, electron: bool): (t: Option<Routing.Target<Row>>)
    ensures t.Some? <==> selected.Some?
    ensures t.Some? ==> t.value.path == "/menu/home/buildingsubcom"
    ensures t.Some? ==> Routing.Get(t.value.query, "building_com_id") == Some(selected.value.building_com_id)
    ensures t.Some? && !electron ==> t.value.state == selected
  {
    match selected
    case None => None
    case Some(row) =>
      Some(Routing.Go(electron, "/menu/home/buildingsubcom", [("building_com_id", row.building_com_id)], Some(row)))
  }

  /** `handleManageSubcomponents`: in Electron mode the row also goes to the 'buildingComData' slot. */
  method ManageSubcomponents(s: ListScreen.Screen<Row>, slot: Routing.Slot<Row>, electron: bool)
    returns (target: Option<Routing.Target<Row>>)
    modifies slot
    ensures target == ManageTarget(s.selected, electron)
    ensures slot.content == if electron && s.selected.Some? then Some(Routing.Json(s.selected.value))
                            else old(slot.content)
  {
    target := None;
    if s.selected.Some? {
      target := ManageTarget(s.selected, electron);
      if electron {
        slot.Write(s.selected.value);
      }
    }
  }
}
