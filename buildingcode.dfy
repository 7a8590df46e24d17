/**
 * The building codes of one structure (`building_codetbl`), scoped by the
 * `structure_code` query parameter.  The structure's data comes from the router
 * state only.
 */
module BuildingCode {
  import opened Wrappers
  import opened JsText
  import opened ListView
  import Search
  import ListScreen
  import Routing
  import Structure

  /** `rate` is a number; it is carried as the text its `toString()` prints. */
  datatype Row = Row(building_code: string, description: string, rate: string, created_at: Option<string>)

  function Fields(r: Row): seq<string> {
    [Lower(r.building_code), Lower(r.description), Lower(r.rate)]
  }

  const Rules: Policy<Row> := Policy(
    NewParentClearItems,
    FetchRule(true, None, "Failed to load building codes", false),
    DeleteRule("building_code", (r: Row) => r.building_code, Some("structure_code"), false, ToastInFinally,
               (r: Row) => r.description + " deleted successfully!",
               "Failed to delete building code", false),
    RefetchAndToast("Building code created successfully!", true, false, false),
    RefetchAndToast("Building code updated successfully!", true, true, false),
    AddNeedsParent,
    EditSelected,
    Fields)

  class Screen {
    const list: ListScreen.Screen<Row>
    var structureData: Option<Structure.Row>

    constructor ()
      ensures fresh(list) && list.policy == Rules && list.State() == Initial() && structureData.None?
    {
      list := new ListScreen.Screen(Rules);
      structureData := None;
    }

    /** The URL effect (key from the query, parent data from router state or null) and the fetch effect. */
    method OnLocation(query: Routing.Query, routerState: Option<Structure.Row>, r: Fetched<Row>)
      requires list.policy == Rules
      modifies this, list
      ensures list.State() == Navigate(Rules, old(list.State()), FromQuery(Routing.Get(query, "structure_code")), r)
      ensures structureData == routerState
    {
      var key := FromQuery(Routing.Get(query, "structure_code"));
      var before := list.parent;
      list.Reset(key);
      if routerState.Some? {
        structureData := routerState;
      } else {
        structureData := None;
      }
      if Scoped(Rules) && key != before && Truthy(key) {
        list.Fetch(r);
      }
    }
  }

  /** Every URL change sets structure_code and clears selection, search and rows before any fetch. */
  lemma ResetClears(v: View<Row>, key: Scalar)
    ensures Reset(Rules, v, key) == v.(parent := key, selected := None, search := "", items := [])
  {
  }

  lemma NoFetchWithoutKey(v: View<Row>, r: Fetched<Row>)
    requires !Truthy(v.parent)
    ensures Fetch(Rules, v, r) == v
  {
  }

  lemma SearchMatches(v: View<Row>, x: Row)
    ensures x in Displayed(Rules, v)
        <==> x in v.items
             && (IsBlank(v.search)
                 || Contains(Lower(x.building_code), Lower(v.search))
                 || Contains(Lower(x.description), Lower(v.search))
                 || Contains(Lower(x.rate), Lower(v.search)))
  {
    Search.FilterSpec(v.items, v.search, Fields, x);
    var t := Lower(v.search);
    assert Search.AnyContains(Fields(x), t)
       <==> Contains(Fields(x)[0], t) || Contains(Fields(x)[1], t) || Contains(Fields(x)[2], t);
  }

  /**
   * The delete is constrained by the code and by the current structure_code
   * (whatever it is: the handler does not check it); the toast shows on both outcomes.
   */
  lemma DeleteKeyed(v: View<Row>, o: Outcome, r: Fetched<Row>)
    requires v.selected.Some?
    ensures var d := ConfirmDelete(Rules, v, o, r);
      && d.request == Some([Eq("building_code", Str(v.selected.value.building_code)), Eq("structure_code", v.parent)])
      && !d.view.confirmOpen && d.view.showToast
      && (o.Done? ==> d.view.selected.None?)
      && (o.Failed? ==> d.view.isError && d.view.toastMessage == "Failed to delete building code")
  {
    match o
    case Failed(m) =>
      IssuedDeleteFailed(Rules, v, m, r);
    case Done =>
      IssuedDeleteDone(Rules, v, r);
      SucceededFacts(Rules, Rules.delete.style, v.(loading := true), Rules.delete.successMessage(v.selected.value), r);
  }

  /** The create callback closes the create modal and toasts; the update callback also clears the selection. */
  lemma Callbacks(v: View<Row>, r: Fetched<Row>)
    requires Truthy(v.parent) && r.Rows?
    ensures var c := AfterSave(Rules, Rules.onCreated, v, r, true);
      !c.createOpen && c.showToast && c.toastMessage == "Building code created successfully!"
      && c.selected == v.selected && c.items == r.data.GetOr([])
    ensures var u := AfterSave(Rules, Rules.onUpdated, v, r, false);
      !u.updateOpen && u.showToast && u.toastMessage == "Building code updated successfully!"
      && u.selected.None? && u.items == r.data.GetOr([])
  {
  }

  lemma Toolbar(v: View<Row>)
    ensures Enabled(Rules, v, Add) <==> Truthy(v.parent)
    ensures Enabled(Rules, v, Edit) <==> v.selected.Some?
    ensures Enabled(Rules, v, Delete) <==> v.selected.Some?
  {
  }

  /**
   * In Electron mode Structure's building-code action writes the row to the
   * 'structureData' slot, but this screen never reads that slot: it gets the
   * structure_code from the query, no parent data, and the slot keeps the row.
   */
  method SlotNeverRead(row: Structure.Row, r: Fetched<Row>)
    returns (key: Scalar, data: Option<Structure.Row>, left: Option<Routing.Stored<Structure.Row>>)
    ensures key == Str(row.structure_code)
    ensures data.None?
    ensures left == Some(Routing.Json(row))
  {
    var structure := new ListScreen.Screen(Structure.Rules);
    structure.RowClick(row);
    var slot := new Routing.Slot<Structure.Row>();
    var target := Structure.ConstructClick(structure, slot, true);
    var codes := new Screen();
    codes.OnLocation(target.value.query, target.value.state, r);
    key := codes.list.parent;
    data := codes.structureData;
    left := slot.content;
  }
}
