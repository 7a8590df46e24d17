/**
 * What the screens read from and write to the browser: the query string of the
 * current location, the navigation a handler performs, and sessionStorage.
 */
module Routing {
  import opened Wrappers

  /** `location.search` parsed into its name/value pairs, in order. */
  type Query = seq<(string, string)>

  /** `new URLSearchParams(search).get(name)`: the first value given for the name, else null. */
  function Get(q: Query, name: string): (r: Option<string>)
    ensures r.None? <==> forall i | 0 <= i < |q| :: q[i].0 != name
    ensures r.Some? ==> exists i | 0 <= i < |q| :: q[i] == (name, r.value)
                                                 && forall j | 0 <= j < i :: q[j].0 != name
    decreases |q|
  {
    if q == [] then None
    else if q[0].0 == name then Some(q[0].1)
    else
      var r := Get(q[1..], name);
      assert r.Some? ==> exists i | 0 <= i < |q| - 1 :: q[1..][i] == (name, r.value)
                                                    && forall j | 0 <= j < i :: q[1..][j].0 != name;
      r
  }

  /**
   * Where a handler sends the user: a path and its query parameters.  In Electron
   * mode the handlers set `window.location.hash` and carry no router state; in the
   * browser they call `history.push`, some of them with a `state` object.
   */
  datatype Target<S> = Target(path: string, query: Query, state: Option<S>)

  function Go<S>(electron: bool, path: string, query: Query, state: Option<S>): (t: Target<S>)
    ensures t.path == path && t.query == query
    ensures electron ==> t.state.None?
    ensures !electron ==> t.state == state
  {
    Target(path, query, if electron then None else state)
  }

  /**
   * A sessionStorage entry: `JSON.stringify` of a record, which `JSON.parse` reads
   * back as the same record, or text that does not parse.
   */
  datatype Stored<R> = Json(record: R) | Malformed(text: string)

  /** One sessionStorage key. */
  class Slot<R(==)> {
    var content: Option<Stored<R>>

    constructor ()
      ensures content.None?
    {
      content := None;
    }

    /** `sessionStorage.setItem(key, JSON.stringify(record))`. */
    method Write(record: R)
      modifies this
      ensures content == Some(Json(record))
    {
      content := Some(Json(record));
    }

    /**
     * `getItem`, then `JSON.parse` and `removeItem` inside one `try`: the entry is
     * removed only if it parsed; a malformed entry is logged and stays.
     */
    method Consume() returns (parsed: Option<R>)
      modifies this
      ensures parsed == Parse(old(content))
      ensures content == (if parsed.Some? then None else old(content))
    {
      parsed := Parse(content);
      if parsed.Some? {
        content := None;
      }
    }
  }

  /** What the `try` around `JSON.parse` yields: the record, or nothing for a missing or malformed entry. */
  function Parse<R>(c: Option<Stored<R>>): (r: Option<R>)
    ensures r.Some? <==> c.Some? && c.value.Json?
    ensures r.Some? ==> c.value.record == r.value
  {
    match c
    case Some(Json(record)) => Some(record)
    case _ => None
  }
}
