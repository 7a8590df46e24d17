/**
 * The property kinds (`kindtbl`).  Each kind leads to its assessment levels,
 * and the building, machinery and land kinds to their own setup screens.
 */
module Kind {
  import opened Wrappers
  import opened JsText
  import opened ListView
  import Search
  import ListScreen
  import Routing
  import AssessmentLevel

  datatype Row = Row(kind_id: int, description: string, created_at: Option<string>)

  /** `kind_id.toString()` as printed, and the description lower-cased. */
  function Fields(r: Row): seq<string> {
    [IntToString(r.kind_id), Lower(r.description)]
  }

  /** The screen reads the kinds once; it has no URL effect, no add, edit or delete. */
  const Rules: Policy<Row> := Policy(
    NoReset,
    FetchRule(false, None, "Failed to load kinds", false),
    NoDelete,
    NoCallback,
    NoCallback,
    NoAddButton,
    NoEditButton,
    Fields)

  /** `isBuilding`: the selected description, upper-cased, is BUILDING. */
  predicate IsBuilding(selected: Option<Row>)
    ensures IsBuilding(selected) ==> selected.Some? && |selected.value.description| == 8
  {
    selected.Some? && Upper(selected.value.description) == "BUILDING"
  }

  /** `isMachinery`. */
  predicate IsMachinery(selected: Option<Row>)
    ensures IsMachinery(selected) ==> selected.Some? && |selected.value.description| == 9
  {
    selected.Some? && Upper(selected.value.description) == "MACHINERY"
  }

  /** `isLand`. */
  predicate IsLand(selected: Option<Row>)
    ensures IsLand(selected) ==> selected.Some? && |selected.value.description| == 4
  {
    selected.Some? && Upper(selected.value.description) == "LAND"
  }

  /** The four toolbar actions. */
  datatype Drill = AssessmentLevels | StructuralType | Equipment | LandManagement

  /** `disabled` of each action, negated. */
  predicate Available(selected: Option<Row>, d: Drill)
    ensures Available(selected, d) ==> selected.Some?
    ensures d == AssessmentLevels ==> (Available(selected, d) <==> selected.Some?)
  {
    match d
    case AssessmentLevels => selected.Some?
    case StructuralType => IsBuilding(selected)
    case Equipment => IsMachinery(selected)
    case LandManagement => IsLand(selected)
  }

  function DrillPath(d: Drill): string {
    match d
    case AssessmentLevels => "/menu/home/assesmentlevel"
    case StructuralType => "/menu/home/structure"
    case Equipment => "/menu/home/equipment"
    case LandManagement => "/menu/home/landadjustment"
  }

  /**
   * What each handler does: nothing unless its own guard holds (even when it is
   * called directly), else the drill-down path with `kind_id`; in the browser the
   * three kind-specific ones also pass `kindData`.
   */
  function DrillTarget(selected: Option<Row>, d: Drill, electron: bool): (t: Option<Routing.Target<Row>>)
    ensures t.Some? <==> Available(selected, d)
    ensures t.Some? ==> (t.value.path == DrillPath(d)
                         && Routing.Get(t.value.query, "kind_id") == Some(IntToString(selected.value.kind_id)))
    ensures t.Some? && (d.AssessmentLevels? || electron) ==> t.value.state.None?
    ensures t.Some? && !d.AssessmentLevels? && !electron ==> t.value.state == Some(selected.value.(created_at := None))
  {
    if !Available(selected, d) then None
    else
      var row := selected.value;
      var query := [("kind_id", IntToString(row.kind_id))];
      if d.AssessmentLevels? then Some(Routing.Go(electron, DrillPath(d), query, None))
      else Some(Routing.Go(electron, DrillPath(d), query, Some(Row(row.kind_id, row.description, None))))
  }

  /** At most one of the kind-specific actions is enabled, and none without a selection. */
  lemma AtMostOneKindAction(selected: Option<Row>)
    ensures !(IsBuilding(selected) && IsMachinery(selected))
    ensures !(IsBuilding(selected) && IsLand(selected))
    ensures !(IsMachinery(selected) && IsLand(selected))
    ensures selected.None? ==> !IsBuilding(selected) && !IsMachinery(selected) && !IsLand(selected)
  {
  }

  /** The description is compared without regard to ASCII case. */
  lemma KindIgnoresCase(row: Row)
    ensures IsLand(Some(row)) <==> IsLand(Some(row.(description := Upper(row.description))))
    ensures IsBuilding(Some(row)) <==> IsBuilding(Some(row.(description := Lower(row.description))))
  {
    UpperOfUpper(row.description);
    UpperOfLower(row.description);
  }

  lemma UpperOfUpper(s: string)
    ensures Upper(Upper(s)) == Upper(s)
  {
  }

  lemma UpperOfLower(s: string)
    ensures Upper(Lower(s)) == Upper(s)
  {
  }

  lemma SearchMatches(v: View<Row>, x: Row)
    ensures x in Displayed(Rules, v)
        <==> x in v.items
             && (IsBlank(v.search)
                 || Contains(IntToString(x.kind_id), Lower(v.search))
                 || Contains(Lower(x.description), Lower(v.search)))
  {
    Search.FilterSpec(v.items, v.search, Fields, x);
    assert Search.AnyContains(Fields(x), Lower(v.search))
       <==> Contains(Fields(x)[0], Lower(v.search)) || Contains(Fields(x)[1], Lower(v.search));
  }

  /** The screen has neither add, nor edit, nor delete, nor a URL effect. */
  lemma NoEditing(v: View<Row>, o: Outcome, key: Scalar, r: Fetched<Row>)
    ensures Press(Rules, v, Add) == v && Press(Rules, v, Edit) == v && Press(Rules, v, Delete) == v
    ensures ConfirmDelete(Rules, v, o, r).request.None?
    ensures Navigate(Rules, v, key, r) == v
  {
  }

  /**
   * From a kind to its assessment levels: the level screen is keyed by the
   * printed kind_id, which is never empty (so it is fetched, even for kind 0)
   * and reads back as the same number.
   */
  method ToAssessmentLevels(row: Row, electron: bool, r: Fetched<AssessmentLevel.Row>)
    returns (key: Scalar, shown: seq<AssessmentLevel.Row>)
    ensures key == Str(IntToString(row.kind_id)) && Truthy(key)
    ensures ParseInt(key.text) == row.kind_id
    ensures r.Rows? ==> shown == r.data.GetOr([])
  {
    var kinds := new ListScreen.Screen(Rules);
    kinds.RowClick(row);
    var target := DrillTarget(kinds.selected, AssessmentLevels, electron);
    var levels := new ListScreen.Screen(AssessmentLevel.Rules);
    levels.Navigate(FromQuery(Routing.Get(target.value.query, "kind_id")), r);
    key := levels.parent;
    IntToStringNonEmpty(row.kind_id);
    IntToStringRoundTrip(row.kind_id);
    shown := levels.items;
  }
}
