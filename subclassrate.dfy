/** The rates of one subclass (`subclassratetbl`), scoped by the `subclass_id` query parameter. */
module SubclassRate {
  import opened Wrappers
  import opened JsText
  import opened ListView
  import Search
  import Routing
  import Subclass

  /**
   * `rate` is a number, carried as its `toString()` text; `eff_year` is text.
   * Either may be missing from a row the backend returns.
   */
  datatype Row = Row(subclassrate_id: string, subclass_id: string, rate: Option<string>,
                     eff_year: Option<string>, created_at: string)

  /** The id lower-cased; the rate and the year as they are, not lower-cased; a missing value as ''. */
  function Fields(r: Row): seq<string> {
    [Lower(r.subclassrate_id), r.rate.GetOr(""), r.eff_year.GetOr("")]
  }

  const Rules: Policy<Row> := Policy(
    NewParentClearItems,
    FetchRule(true, None, "Failed to load rates", false),
    DeleteRule("subclassrate_id", (r: Row) => r.subclassrate_id, None, false, AwaitRefetch(false),
               (r: Row) => "Rate deleted successfully!",
               "Failed to delete rate", false),
    RefetchAndToast("Subclass rate created successfully!", false, false, false),
    RefetchAndToast("Subclass rate updated successfully!", true, false, false),
    AddNeedsParent,
    EditSelected,
    Fields)

  /** `handleBackClick`: the subclass screen, with the class_id of the current URL when it is non-empty. */
  function BackTarget(query: Routing.Query, electron: bool): (t: Routing.Target<()>)
    ensures t.path == "/menu/home/subclass" && t.state.None?
    ensures var c := Routing.Get(query, "class_id");
      Routing.Get(t.query, "class_id") == if c.Some? && c.value != "" then c else None
  {
    var classId := Routing.Get(query, "class_id");
    if classId.Some? && classId.value != "" then
      Routing.Go(electron, "/menu/home/subclass", [("class_id", classId.value)], None)
    else
      Routing.Go(electron, "/menu/home/subclass", [], None)
  }

  lemma SearchMatches(v: View<Row>, x: Row)
    ensures x in Displayed(Rules, v)
        <==> x in v.items
             && (IsBlank(v.search)
                 || Contains(Lower(x.subclassrate_id), Lower(v.search))
                 || Contains(x.rate.GetOr(""), Lower(v.search))
                 || Contains(x.eff_year.GetOr(""), Lower(v.search)))
  {
    Search.FilterSpec(v.items, v.search, Fields, x);
    var t := Lower(v.search);
    assert Search.AnyContains(Fields(x), t)
       <==> Contains(Fields(x)[0], t) || Contains(Fields(x)[1], t) || Contains(Fields(x)[2], t);
  }

  /**
   * The term is lower-cased but the rate and the year are not: a term starting
   * with an upper-case letter finds a row only if one of its columns holds that
   * letter in lower case (so "NaN" never finds the rate text "NaN").
   */
  lemma RawColumnsCaseSensitive(v: View<Row>, x: Row)
    requires x in v.items && !IsBlank(v.search)
    requires |v.search| > 0 && 'A' <= v.search[0] <= 'Z'
    requires forall j | 0 <= j < |Lower(x.subclassrate_id)| :: Lower(x.subclassrate_id)[j] != LowerChar(v.search[0])
    requires forall j | 0 <= j < |x.rate.GetOr("")| :: x.rate.GetOr("")[j] != LowerChar(v.search[0])
    requires forall j | 0 <= j < |x.eff_year.GetOr("")| :: x.eff_year.GetOr("")[j] != LowerChar(v.search[0])
    ensures x !in Displayed(Rules, v)
  {
    SearchMatches(v, x);
    var t := Lower(v.search);
    FirstCharAbsent(Lower(x.subclassrate_id), t);
    FirstCharAbsent(x.rate.GetOr(""), t);
    FirstCharAbsent(x.eff_year.GetOr(""), t);
  }

  lemma DeleteKeyed(v: View<Row>, o: Outcome, r: Fetched<Row>)
    requires v.selected.Some?
    ensures var d := ConfirmDelete(Rules, v, o, r);
      && d.request == Some([Eq("subclassrate_id", Str(v.selected.value.subclassrate_id))])
      && (o.Done? ==> d.view.selected.None? && d.view.toastMessage == "Rate deleted successfully!")
      && (o.Failed? ==> d.view.isError && d.view.toastMessage == "Failed to delete rate")
  {
    match o
    case Failed(m) =>
      IssuedDeleteFailed(Rules, v, m, r);
    case Done =>
      IssuedDeleteDone(Rules, v, r);
      SucceededFacts(Rules, Rules.delete.style, v.(loading := true), Rules.delete.successMessage(v.selected.value), r);
  }

  lemma Toolbar(v: View<Row>)
    ensures Enabled(Rules, v, Add) <==> Truthy(v.parent)
    ensures Enabled(Rules, v, Edit) <==> v.selected.Some?
    ensures Enabled(Rules, v, Delete) <==> v.selected.Some?
  {
  }

  /** Every URL change sets subclass_id and clears selection, search and rows. */
  lemma ResetClears(v: View<Row>, key: Scalar)
    ensures Reset(Rules, v, key) == v.(parent := key, selected := None, search := "", items := [])
  {
  }

  /**
   * The round trip Subclass, rates, back: it returns to the class_id it left
   * from, when that was a non-empty text.
   */
  lemma RoundTrip(row: Subclass.Row, classId: string, electron: bool)
    requires classId != ""
    ensures var there := Subclass.RateTarget(Some(row), Str(classId), electron).value;
      Routing.Get(BackTarget(there.query, electron).query, "class_id") == Some(classId)
  {
  }

  /**
   * When Subclass has rows from an earlier class but no class_id (the URL effect
   * keeps the rows), a row can still be selected; its rates link carries
   * class_id=null, and the back button then keys Subclass by the text "null",
   * which is truthy, so Subclass queries class_id "null".
   */
  lemma StaleRowBackToNullText(v: View<Subclass.Row>, row: Subclass.Row, r: Fetched<Subclass.Row>,
                               r2: Fetched<Subclass.Row>, electron: bool)
    requires row in v.items && Truthy(v.parent)
    ensures var w := Navigate(Subclass.Rules, v, Null, r).(selected := Some(row));
      && row in w.items
      && var there := Subclass.RateTarget(w.selected, w.parent, electron).value;
      && var back := BackTarget(there.query, electron);
      && Routing.Get(back.query, "class_id") == Some("null")
      && Navigate(Subclass.Rules, w, FromQuery(Routing.Get(back.query, "class_id")), r2).parent == Str("null")
      && Truthy(Str("null"))
  {
    Subclass.NewKeyKeepsRows(v, Null, r);
    var w := Navigate(Subclass.Rules, v, Null, r).(selected := Some(row));
    assert w.parent == Null && w.items == v.items;
    var there := Subclass.RateTarget(w.selected, w.parent, electron).value;
    assert Routing.Get(there.query, "class_id") == Some("null");
    var back := BackTarget(there.query, electron);
    var key := FromQuery(Routing.Get(back.query, "class_id"));
    assert key == Str("null");
    assert Truthy(key);
    assert Navigate(Subclass.Rules, w, key, r2).parent == key;
  }
}
