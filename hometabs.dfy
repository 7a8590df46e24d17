/** The Electron tab host of the Home section. */
module HomeTabs {
  import opened JsText
  import Tabs

  /** The names the pathname effect tests, in its order; 'classification' is the default. */
  const Order: seq<string> := ["district", "kind", "subclass", "taxrate", "barangay", "assesmentlevel",
                               "subclassrate", "structure", "buildingcode", "actualused", "buildingcom",
                               "buildingsubcom", "equipment", "landadjustment"]

  const Default: string := "classification"

  /** `mainTabs`: the only buttons of the bottom bar. */
  const Bar: seq<string> := ["classification", "district", "kind"]

  const Prefix: string := "#/menu/home/"

  function Resolve(path: string): string {
    Tabs.FirstMatch(path, Order, Default)
  }

  /** The screens `renderContent` can show. */
  datatype Page = ClassificationPage | DistrictPage | KindPage | SubclassPage | TaxratePage | BarangayPage
                | AssessmentLevelPage | SubclassRatePage | StructurePage | BuildingCodePage | ActualUsedPage
                | BuildingComPage | BuildingSubComPage | EquipmentPage | LandAdjustmentPage

  const Known: set<string> := {"classification", "district", "kind", "subclass", "taxrate", "barangay",
                               "assesmentlevel", "subclassrate", "structure", "buildingcode", "actualused",
                               "buildingcom", "buildingsubcom", "equipment", "landadjustment"}

  /** `renderContent`: one screen per tab name, Classification for any other string. */
  function Render(tab: string): (p: Page)
    ensures p == ClassificationPage <==> tab == "classification" || tab !in Known
    ensures p == DistrictPage <==> tab == "district"
    ensures p == KindPage <==> tab == "kind"
    ensures p == SubclassPage <==> tab == "subclass"
    ensures p == TaxratePage <==> tab == "taxrate"
    ensures p == BarangayPage <==> tab == "barangay"
    ensures p == AssessmentLevelPage <==> tab == "assesmentlevel"
    ensures p == SubclassRatePage <==> tab == "subclassrate"
    ensures p == StructurePage <==> tab == "structure"
    ensures p == BuildingCodePage <==> tab == "buildingcode"
    ensures p == ActualUsedPage <==> tab == "actualused"
    ensures p == BuildingComPage <==> tab == "buildingcom"
    ensures p == BuildingSubComPage <==> tab == "buildingsubcom"
    ensures p == EquipmentPage <==> tab == "equipment"
    ensures p == LandAdjustmentPage <==> tab == "landadjustment"
  {
    if tab == "district" then DistrictPage
    else if tab == "kind" then KindPage
    else if tab == "subclass" then SubclassPage
    else if tab == "taxrate" then TaxratePage
    else if tab == "barangay" then BarangayPage
    else if tab == "assesmentlevel" then AssessmentLevelPage
    else if tab == "subclassrate" then SubclassRatePage
    else if tab == "structure" then StructurePage
    else if tab == "buildingcode" then BuildingCodePage
    else if tab == "actualused" then ActualUsedPage
    else if tab == "buildingcom" then BuildingComPage
    else if tab == "buildingsubcom" then BuildingSubComPage
    else if tab == "equipment" then EquipmentPage
    else if tab == "landadjustment" then LandAdjustmentPage
    else ClassificationPage
  }

  /** Two different known tab names render two different screens. */
  lemma RenderOneToOne(a: string, b: string)
    requires a in Known && b in Known && a != b
    ensures Render(a) != Render(b)
  {
  }

  /** Resolution is total: every path gives one of the checked names or the default. */
  lemma Total(path: string)
    ensures Resolve(path) in Order || Resolve(path) == Default
  {
  }

  /**
   * A path containing "/subclassrate" also contains "/subclass", which is checked
   * first: unless "/district" or "/kind" occurs too, it resolves to 'subclass'.
   */
  lemma SubclassRateResolvesToSubclass(path: string)
    requires Contains(path, "/subclassrate")
    requires !Contains(path, "/district") && !Contains(path, "/kind")
    ensures Resolve(path) == "subclass"
  {
    assert "/subclassrate" == "/subclass" + "rate";
    ContainsPrefixOf(path, "/subclass", "rate");
    FirstTests();
    Tabs.ThirdWins(path, Order, Default);
  }

  /** The first three tests of the chain. */
  lemma FirstTests()
    ensures "/" + Order[0] == "/district" && "/" + Order[1] == "/kind" && "/" + Order[2] == "/subclass"
  {
    assert Order[0] == "district" && Order[1] == "kind" && Order[2] == "subclass";
  }

  /** No path resolves to 'subclassrate': its only occurrence in the order comes after 'subclass'. */
  lemma NeverResolvesToSubclassRate(path: string)
    ensures Resolve(path) != "subclassrate"
  {
    var rate := "subclass" + "rate";
    assert rate == "subclassrate";
    assert Order[2] == "subclass";
    forall i | 0 <= i < |Order| && Order[i] == rate
      ensures exists j | 0 <= j < i :: Order[j] == "subclass"
    {
      assert Order[0] != rate && Order[1] != rate && Order[2] != rate;
    }
    assert Default != rate;
    Tabs.Shadowed(path, Order, Default, "subclass", "rate");
  }

  /**
   * The evidently intended chain: '/subclassrate' checked before '/subclass',
   * the other names in their order.
   */
  const IntendedOrder: seq<string> := ["district", "kind", "subclassrate", "subclass", "taxrate", "barangay",
                                       "assesmentlevel", "structure", "buildingcode", "actualused", "buildingcom",
                                       "buildingsubcom", "equipment", "landadjustment"]

  /**
   * With the intended chain, a '/subclassrate' path (one without '/district' or
   * '/kind') resolves to 'subclassrate', so the rate screen can be shown.
   */
  lemma IntendedReachesSubclassRate(path: string)
    requires Contains(path, "/subclassrate")
    requires !Contains(path, "/district") && !Contains(path, "/kind")
    ensures Tabs.FirstMatch(path, IntendedOrder, Default) == "subclassrate"
    ensures Render(Tabs.FirstMatch(path, IntendedOrder, Default)) == SubclassRatePage
  {
    assert IntendedOrder[0] == "district" && IntendedOrder[1] == "kind" && IntendedOrder[2] == "subclassrate";
    assert "/" + IntendedOrder[0] == "/district" && "/" + IntendedOrder[1] == "/kind";
    assert "/" + IntendedOrder[2] == "/subclassrate";
    Tabs.ThirdWins(path, IntendedOrder, Default);
  }

  /**
   * Neither the bar nor any pathname makes 'subclassrate' active, so the
   * SubclassRate screen is never rendered by this host.
   */
  lemma SubclassRateNeverShown(tab: string, es: seq<Tabs.Event>)
    requires tab != "subclassrate"
    ensures Tabs.Run(Order, Default, Bar, tab, es) != "subclassrate"
    ensures Render(Tabs.Run(Order, Default, Bar, tab, es)) != SubclassRatePage
  {
    forall k | 0 <= k < |es| && es[k].Located?
      ensures Tabs.FirstMatch(es[k].path, Order, Default) != "subclassrate"
    {
      NeverResolvesToSubclassRate(es[k].path);
    }
    Tabs.RunAvoids(Order, Default, Bar, tab, es, "subclassrate");
  }

  /** A bar click makes exactly its tab active and pushes its hash. */
  method ClickBar(i: nat) returns (active: string, pushed: string)
    requires i < |Bar|
    ensures active == Bar[i] && pushed == Prefix + Bar[i]
    ensures Render(active) in {ClassificationPage, DistrictPage, KindPage}
  {
    var host := new Tabs.Host(Order, Default, Bar, Prefix);
    var url := host.Handle(Tabs.TabClicked(i));
    active := host.activeTab;
    pushed := url.value;
  }
}
