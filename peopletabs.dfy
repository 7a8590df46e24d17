/** The Electron tab host of the People section. */
module PeopleTabs {
  import opened JsText
  import Tabs

  /** Checked in this order; 'declarant' is the default. */
  const Order: seq<string> := ["user", "devices", "register"]

  const Default: string := "declarant"

  /** `mainTabs`: Register has no button. */
  const Bar: seq<string> := ["declarant", "user", "devices"]

  const Prefix: string := "#/menu/people/"

  function Resolve(path: string): string {
    Tabs.FirstMatch(path, Order, Default)
  }

  datatype Page = DeclarantPage | UserPage | DevicesPage | RegisterPage

  /** `renderContent`: Declarant for 'declarant' and for every unknown string. */
  function Render(tab: string): (p: Page)
    ensures p == DeclarantPage <==> tab !in {"user", "devices", "register"}
    ensures p == UserPage <==> tab == "user"
    ensures p == DevicesPage <==> tab == "devices"
    ensures p == RegisterPage <==> tab == "register"
  {
    if tab == "user" then UserPage
    else if tab == "devices" then DevicesPage
    else if tab == "register" then RegisterPage
    else DeclarantPage
  }

  /** The chain tests '/user', then '/devices', then '/register', and falls back to 'declarant'. */
  lemma ResolveOrder(path: string)
    ensures Resolve(path) == if Contains(path, "/user") then "user"
                             else if Contains(path, "/devices") then "devices"
                             else if Contains(path, "/register") then "register"
                             else "declarant"
  {
    assert "/" + Order[0] == "/user" && "/" + Order[1] == "/devices" && "/" + Order[2] == "/register";
    if Contains(path, "/user") {
      Tabs.FirstMatchAt(path, Order, Default, 0);
    } else if Contains(path, "/devices") {
      Tabs.FirstMatchAt(path, Order, Default, 1);
    } else if Contains(path, "/register") {
      assert forall j | 0 <= j < 2 :: !Contains(path, "/" + Order[j]) by {
        forall j | 0 <= j < 2 ensures !Contains(path, "/" + Order[j]) {
          assert j == 0 || j == 1;
        }
      }
      Tabs.FirstMatchAt(path, Order, Default, 2);
    } else {
      assert forall i | 0 <= i < |Order| :: !Contains(path, "/" + Order[i]) by {
        forall i | 0 <= i < |Order| ensures !Contains(path, "/" + Order[i]) {
          assert i == 0 || i == 1 || i == 2;
        }
      }
    }
  }

  /** 'register' is active only if the host started there or some visited path resolved to it: the bar has no such button. */
  lemma RegisterOnlyByPath(tab: string, es: seq<Tabs.Event>)
    ensures Tabs.Run(Order, Default, Bar, tab, es) == "register" ==>
      tab == "register" || exists k | 0 <= k < |es| :: es[k].Located? && Resolve(es[k].path) == "register"
  {
    if tab != "register" && forall k | 0 <= k < |es| :: !(es[k].Located? && Resolve(es[k].path) == "register") {
      Tabs.RunAvoids(Order, Default, Bar, tab, es, "register");
    }
  }

  /** A bar click makes exactly its tab active, pushes its hash, and never shows Register. */
  method ClickBar(i: nat) returns (active: string, pushed: string)
    requires i < |Bar|
    ensures active == Bar[i] && pushed == Prefix + Bar[i]
    ensures Render(active) != RegisterPage
  {
    var host := new Tabs.Host(Order, Default, Bar, Prefix);
    var url := host.Handle(Tabs.TabClicked(i));
    active := host.activeTab;
    pushed := url.value;
  }
}
