/**
 * The sub-components of one building component (`building_subcomponenttbl`),
 * scoped by the `building_com_id` query parameter, with the parent component's
 * data taken from the router state or, in Electron mode, from the
 * 'buildingComData' sessionStorage slot that BuildingCom writes.
 */
module BuildingSubCom {
  import opened Wrappers
  import opened JsText
  import opened ListView
  import Search
  import ListScreen
  import Routing
  import BuildingCom

  /** `rate` is a number; it is carried as the text its `toString()` prints. */
  datatype Row = Row(building_subcom_id: string, description: string, rate: string,
                     building_com_id: string, percent: bool)

  /** Ids and description lower-cased, the rate text as printed, and the percent flag as a word. */
  function Fields(r: Row): seq<string> {
    [Lower(r.building_subcom_id), Lower(r.description), r.rate, Lower(r.building_com_id),
     if r.percent then "percent" else "fixed"]
  }

  const Rules: Policy<Row> := Policy(
    NewParentClearItems,
    FetchRule(true, None, "Failed to load building sub-components", true),
    DeleteRule("building_subcom_id", (r: Row) => r.building_subcom_id, Some("building_com_id"), true,
               AwaitRefetch(false),
               (r: Row) => "\"" + r.description + "\" deleted successfully!",
               "Failed to delete building sub-component", true),
    RefetchAndToast("Building Sub-Component created successfully!", true, false, false),
    RefetchAndToast("Building Sub-Component updated successfully!", true, true, false),
    AddNeedsParent,
    EditSelected,
    Fields)

  /** The parent data the reset effect stores: router state first, then the slot's record, else null. */
  function ParentData(routerState: Option<BuildingCom.Row>, fromSlot: Option<BuildingCom.Row>): (d: Option<BuildingCom.Row>)
    ensures routerState.Some? ==> d == routerState
    ensures routerState.None? ==> d == fromSlot
  {
    if routerState.Some? then routerState else fromSlot
  }

  class Screen {
    const list: ListScreen.Screen<Row>
    var parentData: Option<BuildingCom.Row>

    constructor ()
      ensures fresh(list) && list.policy == Rules && list.State() == Initial() && parentData.None?
    {
      list := new ListScreen.Screen(Rules);
      parentData := None;
    }

    /**
     * The URL effect and the fetch effect after it.  `r` answers the fetch that
     * runs when `building_com_id` changed to a truthy value.
     */
    method OnLocation(query: Routing.Query, routerState: Option<BuildingCom.Row>, electron: bool,
                      slot: Routing.Slot<BuildingCom.Row>, r: Fetched<Row>)
      requires list.policy == Rules
      modifies this, list, slot
      ensures list.State() == Navigate(Rules, old(list.State()), FromQuery(Routing.Get(query, "building_com_id")), r)
      ensures parentData == ParentData(routerState, if electron then Routing.Parse(old(slot.content)) else None)
      ensures slot.content == if electron && Routing.Parse(old(slot.content)).Some? then None else old(slot.content)
    {
      var key := FromQuery(Routing.Get(query, "building_com_id"));
      var before := list.parent;
      list.Reset(key);
      var fromSlot: Option<BuildingCom.Row> := None;
      if electron {
        fromSlot := slot.Consume();
      }
      if routerState.Some? {
        parentData := routerState;
      } else if fromSlot.Some? {
        parentData := fromSlot;
      } else {
        parentData := None;
      }
      if Scoped(Rules) && key != before && Truthy(key) {
        list.Fetch(r);
      }
    }
  }

  /** Every URL change sets the key from the query and clears selection, search and rows before any fetch. */
  lemma ResetClears(v: View<Row>, key: Scalar)
    ensures Reset(Rules, v, key) == v.(parent := key, selected := None, search := "", items := [])
  {
  }

  /** Without a key the fetch issues no query and changes nothing. */
  lemma NoFetchWithoutKey(v: View<Row>, r: Fetched<Row>)
    requires !Truthy(v.parent)
    ensures Fetch(Rules, v, r) == v
  {
  }

  /** A malformed slot entry is neither used nor removed: the parent data falls back to router state. */
  lemma MalformedSlotIgnored(routerState: Option<BuildingCom.Row>, text: string)
    ensures Routing.Parse<BuildingCom.Row>(Some(Routing.Malformed(text))).None?
    ensures ParentData(routerState, Routing.Parse<BuildingCom.Row>(Some(Routing.Malformed(text)))) == routerState
  {
  }

  /** A row is shown exactly when one of its ids, its description, its rate text or its flag word contains the lower-cased term. */
  lemma SearchMatches(v: View<Row>, x: Row)
    ensures x in Displayed(Rules, v)
        <==> x in v.items
             && (IsBlank(v.search)
                 || Contains(Lower(x.building_subcom_id), Lower(v.search))
                 || Contains(Lower(x.description), Lower(v.search))
                 || Contains(x.rate, Lower(v.search))
                 || Contains(Lower(x.building_com_id), Lower(v.search))
                 || Contains(if x.percent then "percent" else "fixed", Lower(v.search)))
  {
    Search.FilterSpec(v.items, v.search, Fields, x);
    var t := Lower(v.search);
    assert Search.AnyContains(Fields(x), t)
       <==> Contains(Fields(x)[0], t) || Contains(Fields(x)[1], t) || Contains(Fields(x)[2], t)
            || Contains(Fields(x)[3], t) || Contains(Fields(x)[4], t);
  }

  /** The percent flag is searchable as any part of "percent" or "fixed", in any case. */
  lemma PercentSearch(v: View<Row>, x: Row)
    requires x in v.items
    requires Contains(if x.percent then "percent" else "fixed", Lower(v.search))
    ensures x in Displayed(Rules, v)
  {
    Search.FilterSpec(v.items, v.search, Fields, x);
    assert Contains(Fields(x)[4], Lower(v.search));
    if IsBlank(v.search) {
    } else {
      assert Search.AnyContains(Fields(x), Lower(v.search));
    }
  }

  /** "true" and "false" never match through the percent flag: only the other columns can match them. */
  lemma BooleanWordsNotSearched(x: Row)
    ensures !Contains(Fields(x)[4], "true") && !Contains(Fields(x)[4], "false")
  {
    var w := Fields(x)[4];
    assert w == "percent" || w == "fixed";
    NoOpeningPair(w, "true");
    NoOpeningPair(w, "false");
  }

  /** A needle whose first two characters never occur side by side in the text is not in it. */
  lemma {:induction false} NoOpeningPair(s: string, t: string)
    requires |t| >= 2
    requires forall i | 0 <= i < |s| - 1 :: !(s[i] == t[0] && s[i + 1] == t[1])
    ensures !Contains(s, t)
    decreases |s|
  {
    if |t| <= |s| {
      assert !(s[0] == t[0] && s[1] == t[1]);
      assert s[..|t|][0] == s[0] && s[..|t|][1] == s[1];
    }
    if |s| > 0 {
      var u := s[1..];
      NoOpeningPair(u, t);
    }
  }

  /** The delete carries both the row's id and the current parent key, and needs both. */
  lemma DeleteKeyed(v: View<Row>, o: Outcome, r: Fetched<Row>)
    ensures var d := ConfirmDelete(Rules, v, o, r);
      && (d.request.Some? <==> v.selected.Some? && Truthy(v.parent))
      && (d.request.Some? ==>
            d.request.value == [Eq("building_subcom_id", Str(v.selected.value.building_subcom_id)),
                                Eq("building_com_id", v.parent)])
      && !d.view.confirmOpen
      && (d.request.Some? && o.Done? ==> d.view.selected.None?)
  {
    DeleteConfirmSpec(Rules, v, o, r);
  }

  /** Add needs the key; edit and delete need a selection. */
  lemma Toolbar(v: View<Row>)
    ensures Enabled(Rules, v, Add) <==> Truthy(v.parent)
    ensures Enabled(Rules, v, Edit) <==> v.selected.Some?
    ensures Enabled(Rules, v, Delete) <==> v.selected.Some?
  {
  }

  /** No handler of this screen ever resets the error flag. */
  lemma ErrorFlagSticky(v: View<Row>, es: seq<Event<Row>>)
    requires v.isError
    ensures Run(Rules, v, es).isError
  {
    RunKeepsError(Rules, v, es);
  }

  /**
   * The hand-off in Electron mode: BuildingCom's manage action writes the
   * selected row to the slot and goes to this screen, whose URL effect keys the
   * list by the row's id, takes the row as its parent data and empties the slot.
   */
  method HandOff(row: BuildingCom.Row, r: Fetched<Row>)
    returns (key: Scalar, data: Option<BuildingCom.Row>, left: Option<Routing.Stored<BuildingCom.Row>>)
    ensures key == Str(row.building_com_id)
    ensures data == Some(row)
    ensures left.None?
  {
    var com := new ListScreen.Screen(BuildingCom.Rules);
    com.RowClick(row);
    var slot := new Routing.Slot<BuildingCom.Row>();
    var target := BuildingCom.ManageSubcomponents(com, slot, true);
    var sub := new Screen();
    sub.OnLocation(target.value.query, target.value.state, true, slot, r);
    key := sub.list.parent;
    data := sub.parentData;
    left := slot.content;
  }
}
