/**
 * The Electron tab hosts of Home and People: the active tab follows the
 * pathname through a first-match chain of `includes` tests with a default,
 * and the bottom bar sets it directly.
 */
module Tabs {
  import opened Wrappers
  import opened JsText

  /**
   * The chain `if (path.includes('/a')) 'a' else if (path.includes('/b')) 'b' ... else d`:
   * the first name, in check order, whose "/name" occurs in the path, else the default.
   */
  function FirstMatch(path: string, names: seq<string>, default: string): (t: string)
    ensures (forall i | 0 <= i < |names| :: !Contains(path, "/" + names[i])) ==> t == default
    ensures (exists i | 0 <= i < |names| :: Contains(path, "/" + names[i])) ==>
      exists i | 0 <= i < |names| :: t == names[i] && Contains(path, "/" + names[i])
                                     && forall j | 0 <= j < i :: !Contains(path, "/" + names[j])
    decreases |names|
  {
    if names == [] then default
    else if Contains(path, "/" + names[0]) then names[0]
    else
      var rest := names[1..];
      var t := FirstMatch(path, rest, default);
      assert forall i | 0 <= i < |rest| :: rest[i] == names[i + 1];
      assert (exists i | 0 <= i < |names| :: Contains(path, "/" + names[i])) ==>
             exists i | 0 <= i < |rest| :: Contains(path, "/" + rest[i]);
      t
  }

  /** The name at index i wins when its check succeeds and every earlier check fails. */
  lemma {:induction false} FirstMatchAt(path: string, names: seq<string>, default: string, i: nat)
    requires i < |names| && Contains(path, "/" + names[i])
    requires forall j | 0 <= j < i :: !Contains(path, "/" + names[j])
    ensures FirstMatch(path, names, default) == names[i]
    decreases i
  {
    if i > 0 {
      assert !Contains(path, "/" + names[0]);
      var rest := names[1..];
      assert forall j | 0 <= j < i - 1 :: rest[j] == names[j + 1];
      FirstMatchAt(path, rest, default, i - 1);
    }
  }

  /**
   * With the first two checks failing, the third name wins when its check
   * succeeds: `FirstMatchAt` at index 2, as `HomeTabs` uses it.
   */
  lemma ThirdWins(path: string, names: seq<string>, default: string)
    requires |names| >= 3 && Contains(path, "/" + names[2])
    requires !Contains(path, "/" + names[0]) && !Contains(path, "/" + names[1])
    ensures FirstMatch(path, names, default) == names[2]
  {
    forall j | 0 <= j < 2
      ensures !Contains(path, "/" + names[j])
    {
      assert j == 0 || j == 1;
    }
    FirstMatchAt(path, names, default, 2);
  }

  /**
   * A name x is never the result when the default differs from it and every
   * occurrence of x comes after a prefix y of it: wherever "/x" occurs, so
   * does "/y", and y is checked first.
   */
  lemma Shadowed(path: string, names: seq<string>, default: string, y: string, suffix: string)
    requires default != y + suffix
    requires forall i | 0 <= i < |names| && names[i] == y + suffix :: exists j | 0 <= j < i :: names[j] == y
    ensures FirstMatch(path, names, default) != y + suffix
  {
    var x := y + suffix;
    var t := FirstMatch(path, names, default);
    if t == x {
      var i :| 0 <= i < |names| && t == names[i] && Contains(path, "/" + names[i])
               && forall j | 0 <= j < i :: !Contains(path, "/" + names[j]);
      var j :| 0 <= j < i && names[j] == y;
      assert "/" + x == ("/" + y) + suffix;
      ContainsPrefixOf(path, "/" + y, suffix);
      assert false;
    }
  }

  /** What changes the active tab: a new pathname, or a click on the bar's button with this index. */
  datatype Event = Located(path: string) | TabClicked(index: nat)

  /** One event; a click on an index the bar does not have is a click on nothing. */
  function Apply(names: seq<string>, default: string, bar: seq<string>, tab: string, e: Event): (t: string)
    ensures e.Located? ==> t == FirstMatch(e.path, names, default)
    ensures e.TabClicked? ==> t == (if e.index < |bar| then bar[e.index] else tab)
  {
    match e
    case Located(path) => FirstMatch(path, names, default)
    case TabClicked(i) => if i < |bar| then bar[i] else tab
  }

  /** The tab after a run of events: the start, a bar tab, or what some visited path resolved to. */
  function Run(names: seq<string>, default: string, bar: seq<string>, tab: string, es: seq<Event>): (t: string)
    ensures es == [] ==> t == tab
    ensures || t == tab
            || (exists i | 0 <= i < |bar| :: t == bar[i])
            || (exists k | 0 <= k < |es| && es[k].Located? :: t == FirstMatch(es[k].path, names, default))
    decreases |es|
  {
    if es == [] then tab
    else
      assert forall k | 0 <= k < |es| - 1 :: es[1..][k] == es[k + 1];
      Run(names, default, bar, Apply(names, default, bar, tab, es[0]), es[1..])
  }

  /**
   * A tab that the start does not hold, the bar does not offer and no visited
   * path resolves to is never active.
   */
  lemma {:induction false} RunAvoids(names: seq<string>, default: string, bar: seq<string>, tab: string,
                                     es: seq<Event>, x: string)
    requires tab != x
    requires forall i | 0 <= i < |bar| :: bar[i] != x
    requires forall k | 0 <= k < |es| && es[k].Located? :: FirstMatch(es[k].path, names, default) != x
    ensures Run(names, default, bar, tab, es) != x
    decreases |es|
  {
    if es != [] {
      var next := Apply(names, default, bar, tab, es[0]);
      assert forall k | 0 <= k < |es| - 1 :: es[1..][k] == es[k + 1];
      RunAvoids(names, default, bar, next, es[1..], x);
    }
  }

  /** `ElectronHomeTabs` / `ElectronPeopleTabs`: one `activeTab` state. */
  class Host {
    const names: seq<string>
    const default: string
    const bar: seq<string>
    const prefix: string
    var activeTab: string

    constructor (names: seq<string>, default: string, bar: seq<string>, prefix: string)
      ensures this.names == names && this.default == default && this.bar == bar && this.prefix == prefix
      ensures activeTab == default
    {
      this.names, this.default, this.bar, this.prefix := names, default, bar, prefix;
      activeTab := default;
    }

    /** The pathname effect. */
    method Located(path: string)
      modifies this
      ensures activeTab == FirstMatch(path, names, default)
    {
      activeTab := FirstMatch(path, names, default);
    }

    /** `handleTabChange`: the tab becomes active and its hash is pushed to the history. */
    method TabChange(tab: string) returns (pushed: string)
      modifies this
      ensures activeTab == tab && pushed == prefix + tab
    {
      activeTab := tab;
      pushed := prefix + tab;
    }

    /** Any event; a bar click also returns the hash it pushed. */
    method Handle(e: Event) returns (pushed: Option<string>)
      modifies this
      ensures activeTab == Apply(names, default, bar, old(activeTab), e)
      ensures pushed == if e.TabClicked? && e.index < |bar| then Some(prefix + bar[e.index]) else None
    {
      pushed := None;
      match e {
        case Located(path) =>
          Located(path);
        case TabClicked(i) =>
          if i < |bar| {
            var url := TabChange(bar[i]);
            pushed := Some(url);
          }
      }
    }
  }
}
