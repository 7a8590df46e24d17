/**
 * The state every list screen keeps (parent key, rows, selection, search term,
 * loading/error/toast flags and the three dialog flags) and the handlers the
 * screens share, as pure step functions.  The screens differ only in a few
 * constants, gathered in a `Policy`: which URL reset they run, what the fetch
 * does without a parent key, how the delete is keyed and where its toast is
 * raised, and what the create/update callbacks do.  Each handler is atomic: the
 * result of an awaited backend call is a parameter, and a refetch that a handler
 * does not await lands after the handler's own updates.
 */
module ListView {
  import opened Wrappers
  import opened JsText
  import Search

  /** The value of `Number(text)`: a number, or NaN for text that is not one. */
  datatype JsNumber = Num(value: real) | NaN

  /** A parent key as a screen holds it: `null`, a query-string value, or `Number(value)`. */
  datatype Scalar = Null | Str(text: string) | Number(number: JsNumber)

  /** `if (key)`: null, the empty string, 0 and NaN are falsy. */
  predicate Truthy(k: Scalar)
    ensures !Truthy(k) <==> k == Null || k == Str("") || k == Number(NaN) || k == Number(Num(0.0))
  {
    match k
    case Null => false
    case Str(s) => s != ""
    case Number(n) => n.Num? && n.value != 0.0
  }

  /** The key a screen stores from `queryParams.get(name)` (a string or null). */
  function FromQuery(value: Option<string>): (k: Scalar)
    ensures k.Null? <==> value.None?
    ensures value.Some? ==> k == Str(value.value)
  {
    match value
    case None => Null
    case Some(s) => Str(s)
  }

  /** An id column as the backend returns it: text or a number. */
  datatype RawId = Text(text: string) | Numeric(number: int)

  /** `String(id)`. */
  function IdString(k: RawId): (s: string)
    ensures k.Text? ==> s == k.text
    ensures k.Numeric? ==> ParseInt(s) == k.number
  {
    match k
    case Text(t) => t
    case Numeric(n) => IntToStringRoundTrip(n); IntToString(n)
  }

  /** One `.eq(column, value)` of a query. */
  datatype Constraint = Eq(column: string, value: Scalar)

  /** What a `select` returns: `data` (possibly null) or an error with its message. */
  datatype Fetched<T> = Rows(data: Option<seq<T>>) | FetchError(message: string)

  /** What an insert/update/delete returns. */
  datatype Outcome = Done | Failed(message: string)

  datatype View<T> = View(
    parent: Scalar,
    items: seq<T>,
    selected: Option<T>,
    search: string,
    loading: bool,
    isError: bool,
    showToast: bool,
    toastMessage: string,
    confirmOpen: bool,
    createOpen: bool,
    updateOpen: bool)

  /** The `useState` initial values. */
  function Initial<T>(): View<T> {
    View(Null, [], None, "", false, false, false, "", false, false, false)
  }

  /** `error.message || fallback` when the screen shows the backend's message, else the fallback. */
  function ErrorText(showsErrorMessage: bool, message: string, fallback: string): (t: string)
    ensures t == fallback || (showsErrorMessage && t == message && message != "")
    ensures !showsErrorMessage ==> t == fallback
  {
    if showsErrorMessage && message != "" then message else fallback
  }

  /** The effect that runs when the URL changes. */
  datatype ResetRule =
    | NoReset                  // the screen has no such effect
    | ClearSelectionAndSearch  // on `location.pathname`; the rows stay
    | NewParentKeepItems       // on `location.search`: new key, rows stay
    | NewParentClearItems      // on `location.search`: new key, rows cleared

  datatype FetchRule = FetchRule(
    needsParent: bool,                 // `if (!key) ...` at the top of the fetch
    missingParentToast: Option<string>, // what that guard raises, if anything
    failMessage: string,
    showsErrorMessage: bool)

  /** Where the success toast is raised, relative to the refetch. */
  datatype DeleteStyle =
    | AwaitRefetch(resetsError: bool)  // `await fetch(); setSelectedRow(null); toast` in `try`
    | ToastInFinally                   // toast and unawaited fetch in `try`, `setShowToast` in `finally`

  datatype DeleteRule<!T> =
    | NoDelete
    | DeleteRule(
        keyColumn: string,
        key: T -> string,
        parentColumn: Option<string>,  // a second `.eq(column, key)` on the parent key
        needsParent: bool,             // `if (!selectedRow || !key) return`
        style: DeleteStyle,
        successMessage: T -> string,
        failMessage: string,
        showsErrorMessage: bool)

  /** What `onCreated`/`onUpdated` does once a modal has saved. */
  datatype Callback =
    | NoCallback
    | Refetch  // the fetch function itself is the callback
    | RefetchAndToast(message: string, closesModal: bool, clearsSelection: bool, resetsError: bool)

  datatype AddRule = NoAddButton | AddAlways | AddNeedsParent

  /** Whether the toolbar has an edit button, which opens the update modal for the selection. */
  datatype EditRule = NoEditButton | EditSelected

  datatype Policy<!T> = Policy(
    reset: ResetRule,
    fetch: FetchRule,
    delete: DeleteRule<T>,
    onCreated: Callback,
    onUpdated: Callback,
    add: AddRule,
    edit: EditRule,
    fields: T -> seq<string>)

  /** The screen's data is scoped by a query parameter. */
  predicate Scoped<T>(p: Policy<T>) {
    p.reset.NewParentKeepItems? || p.reset.NewParentClearItems?
  }

  /** Nothing on the screen ever sets `isError` back to false. */
  predicate NeverClearsError<T>(p: Policy<T>) {
    && !(p.delete.DeleteRule? && p.delete.style == AwaitRefetch(true))
    && !(p.onCreated.RefetchAndToast? && p.onCreated.resetsError)
    && !(p.onUpdated.RefetchAndToast? && p.onUpdated.resetsError)
  }

  /** The rows the table shows. */
  function Displayed<T(==)>(p: Policy<T>, v: View<T>): (r: seq<T>)
    ensures |r| <= |v.items|
    ensures IsBlank(v.search) ==> r == v.items
    ensures forall x | x in r :: x in v.items
  {
    Search.Filter(v.items, v.search, p.fields)
  }

  /** The URL effect: what it clears, and the key it stores on a scoped screen. */
  function Reset<T>(p: Policy<T>, v: View<T>, key: Scalar): (w: View<T>)
    ensures w.loading == v.loading && w.isError == v.isError
    ensures w.parent == if Scoped(p) then key else v.parent
    ensures !p.reset.NoReset? ==> w.selected.None? && w.search == ""
    ensures w.items == if p.reset.NewParentClearItems? then [] else v.items
    ensures p.reset.NoReset? ==> w == v
  {
    match p.reset
    case NoReset => v
    case ClearSelectionAndSearch => v.(selected := None, search := "")
    case NewParentKeepItems => v.(parent := key, selected := None, search := "")
    case NewParentClearItems => v.(parent := key, selected := None, search := "", items := [])
  }

  /** The screen's fetch function, called with the backend's answer. */
  function Fetch<T>(p: Policy<T>, v: View<T>, r: Fetched<T>): (w: View<T>)
    ensures w.selected == v.selected && w.search == v.search && w.parent == v.parent
    ensures w.createOpen == v.createOpen && w.updateOpen == v.updateOpen && w.confirmOpen == v.confirmOpen
    ensures (v.isError ==> w.isError) && (v.showToast ==> w.showToast) && (!v.loading ==> !w.loading)
    ensures p.fetch.needsParent && !Truthy(v.parent) && p.fetch.missingParentToast.None? ==> w == v
    ensures !p.fetch.needsParent || Truthy(v.parent) ==>
              && !w.loading
              && (r.Rows? ==> w.items == r.data.GetOr([]) && w.isError == v.isError)
              && (r.FetchError? ==> w.items == v.items && w.isError && w.showToast)
  {
    if p.fetch.needsParent && !Truthy(v.parent) then
      match p.fetch.missingParentToast
      case None => v
      case Some(m) => v.(toastMessage := m, isError := true, showToast := true, loading := false)
    else
      match r
      case Rows(data) => v.(items := data.GetOr([]), loading := false)
      case FetchError(m) =>
        v.(toastMessage := ErrorText(p.fetch.showsErrorMessage, m, p.fetch.failMessage),
           isError := true, showToast := true, loading := false)
  }

  /**
   * A URL change: the reset effect, then the fetch effect, which React runs only
   * when the stored key changed and which fetches only for a truthy key.
   */
  function Navigate<T>(p: Policy<T>, v: View<T>, key: Scalar, r: Fetched<T>): (w: View<T>)
    ensures (!v.loading ==> !w.loading) && (v.isError ==> w.isError)
    ensures w.parent == if Scoped(p) then key else v.parent
    ensures !p.reset.NoReset? ==> w.selected.None? && w.search == ""
    ensures Scoped(p) && (key == v.parent || !Truthy(key)) ==> w == Reset(p, v, key)
  {
    var w := Reset(p, v, key);
    if Scoped(p) && key != v.parent && Truthy(key) then Fetch(p, w, r) else w
  }

  /** The first render: a scoped screen starts from a null key, the others fetch once. */
  function Mount<T>(p: Policy<T>, key: Scalar, r: Fetched<T>): (w: View<T>)
    ensures !w.loading && w.selected.None? && w.search == ""
    ensures !w.createOpen && !w.updateOpen && !w.confirmOpen
    ensures w.parent == if Scoped(p) then key else Null
    ensures Scoped(p) && !Truthy(key) ==> w == Reset(p, Initial(), key) && w.items == [] && !w.isError
    ensures (if Scoped(p) then Truthy(key) else !p.fetch.needsParent) ==>
              && (r.Rows? ==> w.items == r.data.GetOr([]) && !w.isError)
              && (r.FetchError? ==> w.items == [] && w.isError && w.showToast)
  {
    if Scoped(p) then Navigate(p, Initial(), key, r) else Fetch(p, Reset(p, Initial(), key), r)
  }

  datatype Action = Add | Edit | Delete

  /** `disabled` of the toolbar buttons, negated. */
  predicate Enabled<T>(p: Policy<T>, v: View<T>, a: Action)
    ensures Enabled(p, v, a) && a != Add ==> v.selected.Some?
    ensures a == Add && p.add.NoAddButton? ==> !Enabled(p, v, a)
    ensures a == Add && p.add.AddAlways? ==> Enabled(p, v, a)
    ensures a == Add && Enabled(p, v, a) && !Truthy(v.parent) ==> p.add.AddAlways?
    ensures a == Edit && p.edit.NoEditButton? ==> !Enabled(p, v, a)
    ensures a == Delete && p.delete.NoDelete? ==> !Enabled(p, v, a)
  {
    match a
    case Add => p.add.AddAlways? || (p.add.AddNeedsParent? && Truthy(v.parent))
    case Edit => v.selected.Some? && p.edit.EditSelected?
    case Delete => v.selected.Some? && p.delete.DeleteRule?
  }

  /** A toolbar press: a disabled icon has no `onClick`; the edit and delete handlers re-check the selection. */
  function Press<T>(p: Policy<T>, v: View<T>, a: Action): (w: View<T>)
    ensures w.createOpen == (v.createOpen || (a == Add && Enabled(p, v, Add)))
    ensures w.updateOpen == (v.updateOpen || (a == Edit && Enabled(p, v, Edit)))
    ensures w.confirmOpen == (v.confirmOpen || (a == Delete && Enabled(p, v, Delete)))
    ensures w.(createOpen := v.createOpen, updateOpen := v.updateOpen, confirmOpen := v.confirmOpen) == v
  {
    if !Enabled(p, v, a) then v
    else match a
      case Add => v.(createOpen := true)
      case Edit => if v.selected.Some? then v.(updateOpen := true) else v
      case Delete => if v.selected.Some? then v.(confirmOpen := true) else v
  }

  datatype DeleteResult<T> = DeleteResult(view: View<T>, request: Option<seq<Constraint>>)

  /** The constraints of the delete query for the selected row. */
  function DeleteQuery<T>(d: DeleteRule<T>, row: T, parent: Scalar): (q: seq<Constraint>)
    requires d.DeleteRule?
    ensures |q| > 0 && q[0] == Eq(d.keyColumn, Str(d.key(row)))
    ensures |q| == 2 <==> d.parentColumn.Some?
    ensures |q| <= 2 && (|q| == 2 ==> q[1] == Eq(d.parentColumn.value, parent))
  {
    if d.parentColumn.Some? then [Eq(d.keyColumn, Str(d.key(row))), Eq(d.parentColumn.value, parent)]
    else [Eq(d.keyColumn, Str(d.key(row)))]
  }

  /** The `try` block after a successful delete, from the `setIsLoading(true)` state `v`. */
  function DeleteSucceeded<T>(p: Policy<T>, style: DeleteStyle, v: View<T>, message: string, refetch: Fetched<T>): (w: View<T>)
    ensures w.selected.None? && w.showToast && !w.loading && !w.confirmOpen && w.parent == v.parent
    ensures style.AwaitRefetch? ==> w.toastMessage == message
  {
    match style
    case AwaitRefetch(resetsError) =>
      var f := Fetch(p, v, refetch);
      f.(selected := None, toastMessage := message,
         isError := if resetsError then false else f.isError,
         showToast := true, loading := false, confirmOpen := false)
    case ToastInFinally =>
      Fetch(p, v.(toastMessage := message, selected := None, loading := false,
                  confirmOpen := false, showToast := true), refetch)
  }

  /** The `catch` and `finally` blocks after a failed delete. */
  function DeleteFailed<T>(v: View<T>, message: string): (w: View<T>)
    ensures w.isError && w.showToast && w.toastMessage == message && !w.loading && !w.confirmOpen
    ensures w.items == v.items && w.selected == v.selected && w.parent == v.parent
  {
    v.(toastMessage := message, isError := true, showToast := true, loading := false, confirmOpen := false)
  }

  /** `handleDeleteConfirm`, with the delete's outcome and the refetch's answer as parameters. */
  function DeleteConfirm<T>(p: Policy<T>, v: View<T>, outcome: Outcome, refetch: Fetched<T>): (d: DeleteResult<T>)
    ensures d.request.Some? <==> p.delete.DeleteRule? && v.selected.Some? && (p.delete.needsParent ==> Truthy(v.parent))
    ensures d.request.None? ==> d.view == v
    ensures d.request.Some? ==> && p.delete.DeleteRule? && v.selected.Some?
                                && d.request.value == DeleteQuery(p.delete, v.selected.value, v.parent)
                                && !d.view.loading && d.view.showToast && !d.view.confirmOpen
    ensures d.view.parent == v.parent
  {
    match p.delete
    case NoDelete => DeleteResult(v, None)
    case DeleteRule(_, _, _, needsParent, style, successMessage, failMessage, showsErrorMessage) =>
      if v.selected.None? || (needsParent && !Truthy(v.parent)) then DeleteResult(v, None)
      else
        var row := v.selected.value;
        var w :=
          match outcome
          case Failed(m) => DeleteFailed(v, ErrorText(showsErrorMessage, m, failMessage))
          case Done => DeleteSucceeded(p, style, v.(loading := true), successMessage(row), refetch);
        DeleteResult(w, Some(DeleteQuery(p.delete, row, v.parent)))
  }

  /** The confirmation's delete button: its handler, then the alert's own close. */
  function ConfirmDelete<T>(p: Policy<T>, v: View<T>, outcome: Outcome, refetch: Fetched<T>): (d: DeleteResult<T>)
    ensures !d.view.confirmOpen && d.view.parent == v.parent
    ensures d.request == DeleteConfirm(p, v, outcome, refetch).request
  {
    var d := DeleteConfirm(p, v, outcome, refetch);
    d.(view := d.view.(confirmOpen := false))
  }

  /** The handler a modal calls after saving; `create` says which modal. */
  function AfterSave<T>(p: Policy<T>, c: Callback, v: View<T>, r: Fetched<T>, create: bool): (w: View<T>)
    ensures w.parent == v.parent && (!v.loading ==> !w.loading)
    ensures c.NoCallback? ==> w == v
    ensures c.RefetchAndToast? ==> w.showToast
    ensures c.RefetchAndToast? && c.closesModal ==> if create then !w.createOpen else !w.updateOpen
    ensures w.selected == if c.RefetchAndToast? && c.clearsSelection then None else v.selected
  {
    match c
    case NoCallback => v
    case Refetch => Fetch(p, v, r)
    case RefetchAndToast(message, closesModal, clearsSelection, resetsError) =>
      var w := v.(
        createOpen := if create && closesModal then false else v.createOpen,
        updateOpen := if !create && closesModal then false else v.updateOpen,
        selected := if clearsSelection then None else v.selected,
        toastMessage := message,
        isError := if resetsError then false else v.isError,
        showToast := true);
      Fetch(p, w, r)
  }

  datatype Event<T> =
    | Navigated(key: Scalar, fetched: Fetched<T>)
    | Clicked(row: T)
    | Pressed(action: Action)
    | Searched(input: Option<string>)
    | Confirmed(outcome: Outcome, refetch: Fetched<T>)
    | Cancelled
    | Created(fetched: Fetched<T>)
    | Updated(fetched: Fetched<T>)
    | CreateClosed
    | UpdateClosed
    | ToastClosed

  /** One event.  Only a URL change moves the key, and only a handler that fetches replaces the rows. */
  function Step<T>(p: Policy<T>, v: View<T>, e: Event<T>): (w: View<T>)
    ensures w.parent == v.parent || e.Navigated?
    ensures w.items == v.items || e.Navigated? || e.Confirmed? || e.Created? || e.Updated?
  {
    match e
    case Navigated(key, r) => Navigate(p, v, key, r)
    case Clicked(row) => v.(selected := Some(row))
    case Pressed(a) => Press(p, v, a)
    case Searched(input) => v.(search := input.GetOr(""))
    case Confirmed(o, r) => if v.confirmOpen then ConfirmDelete(p, v, o, r).view else v
    case Cancelled => v.(confirmOpen := false)
    case Created(r) => AfterSave(p, p.onCreated, v, r, true)
    case Updated(r) => AfterSave(p, p.onUpdated, v, r, false)
    case CreateClosed => v.(createOpen := false)
    case UpdateClosed => v.(updateOpen := false)
    case ToastClosed => v.(showToast := false)
  }

  /** A sequence of events: without a URL change among them the key never moves. */
  function Run<T>(p: Policy<T>, v: View<T>, es: seq<Event<T>>): (w: View<T>)
    ensures (forall i | 0 <= i < |es| :: !es[i].Navigated?) ==> w.parent == v.parent
    decreases |es|
  {
    if es == [] then v
    else
      assert forall i | 0 <= i < |es| - 1 :: es[1..][i] == es[i + 1];
      Run(p, Step(p, v, es[0]), es[1..])
  }

  // ---------------------------------------------------------------------------
  // Properties shared by every screen

  /** The fetch turns the spinner off, and raises the error flag or leaves it. */
  lemma FetchFlags<T>(p: Policy<T>, v: View<T>, r: Fetched<T>)
    ensures !v.loading ==> !Fetch(p, v, r).loading
    ensures v.isError ==> Fetch(p, v, r).isError
    ensures Fetch(p, v, r).selected == v.selected && Fetch(p, v, r).search == v.search
    ensures Fetch(p, v, r).parent == v.parent
  {
    var w := Fetch(p, v, r);
    if p.fetch.needsParent && !Truthy(v.parent) {
      match p.fetch.missingParentToast
      case None => assert w == v;
      case Some(m) => assert w == v.(toastMessage := m, isError := true, showToast := true, loading := false);
    } else {
      match r
      case Rows(data) => assert w == v.(items := data.GetOr([]), loading := false);
      case FetchError(m) =>
        assert w == v.(toastMessage := ErrorText(p.fetch.showsErrorMessage, m, p.fetch.failMessage),
                       isError := true, showToast := true, loading := false);
    }
  }

  lemma DeleteConfirmFlags<T>(p: Policy<T>, v: View<T>, o: Outcome, r: Fetched<T>)
    ensures !v.loading ==> !ConfirmDelete(p, v, o, r).view.loading
    ensures v.isError && NeverClearsError(p) ==> ConfirmDelete(p, v, o, r).view.isError
  {
    FetchFlags(p, v.(loading := true), r);
    if p.delete.DeleteRule? && v.selected.Some? {
      var row := v.selected.value;
      FetchFlags(p, v.(loading := true).(toastMessage := p.delete.successMessage(row), selected := None,
                       loading := false, confirmOpen := false, showToast := true), r);
    }
  }

  lemma AfterSaveFlags<T>(p: Policy<T>, c: Callback, v: View<T>, r: Fetched<T>, create: bool)
    ensures !v.loading ==> !AfterSave(p, c, v, r, create).loading
    ensures v.isError && !(c.RefetchAndToast? && c.resetsError) ==> AfterSave(p, c, v, r, create).isError
  {
    FetchFlags(p, v, r);
    if c.RefetchAndToast? {
      FetchFlags(p, v.(
        createOpen := if create && c.closesModal then false else v.createOpen,
        updateOpen := if !create && c.closesModal then false else v.updateOpen,
        selected := if c.clearsSelection then None else v.selected,
        toastMessage := c.message,
        isError := if c.resetsError then false else v.isError,
        showToast := true), r);
    }
  }

  /** Every handler finishes with the spinner off. */
  lemma StepEndsLoading<T>(p: Policy<T>, v: View<T>, e: Event<T>)
    requires !v.loading
    ensures !Step(p, v, e).loading
  {
    match e
    case Navigated(key, r) =>
      assert Step(p, v, e) == Navigate(p, v, key, r);
      ResetKeepsFlags(p, v, key);
      FetchFlags(p, Reset(p, v, key), r);
    case Confirmed(o, r) =>
      assert Step(p, v, e) == if v.confirmOpen then ConfirmDelete(p, v, o, r).view else v;
      DeleteConfirmFlags(p, v, o, r);
    case Created(r) =>
      assert Step(p, v, e) == AfterSave(p, p.onCreated, v, r, true);
      AfterSaveFlags(p, p.onCreated, v, r, true);
    case Updated(r) =>
      assert Step(p, v, e) == AfterSave(p, p.onUpdated, v, r, false);
      AfterSaveFlags(p, p.onUpdated, v, r, false);
    case Pressed(a) =>
      assert Step(p, v, e) == Press(p, v, a);
    case _ =>
  }

  lemma {:induction false} RunEndsLoading<T>(p: Policy<T>, v: View<T>, es: seq<Event<T>>)
    requires !v.loading
    ensures !Run(p, v, es).loading
    decreases |es|
  {
    if es != [] {
      StepEndsLoading(p, v, es[0]);
      RunEndsLoading(p, Step(p, v, es[0]), es[1..]);
    }
  }

  lemma MountEndsLoading<T>(p: Policy<T>, key: Scalar, r: Fetched<T>, es: seq<Event<T>>)
    ensures !Run(p, Mount(p, key, r), es).loading
  {
    RunEndsLoading(p, Mount(p, key, r), es);
  }

  /** On a screen that never clears it, the error flag stays raised once a failure raised it. */
  lemma StepKeepsError<T>(p: Policy<T>, v: View<T>, e: Event<T>)
    requires NeverClearsError(p) && v.isError
    ensures Step(p, v, e).isError
  {
    match e
    case Navigated(key, r) =>
      assert Step(p, v, e) == Navigate(p, v, key, r);
      ResetKeepsFlags(p, v, key);
      FetchFlags(p, Reset(p, v, key), r);
    case Confirmed(o, r) =>
      assert Step(p, v, e) == if v.confirmOpen then ConfirmDelete(p, v, o, r).view else v;
      DeleteConfirmFlags(p, v, o, r);
    case Created(r) =>
      assert Step(p, v, e) == AfterSave(p, p.onCreated, v, r, true);
      AfterSaveFlags(p, p.onCreated, v, r, true);
    case Updated(r) =>
      assert Step(p, v, e) == AfterSave(p, p.onUpdated, v, r, false);
      AfterSaveFlags(p, p.onUpdated, v, r, false);
    case Pressed(a) =>
      assert Step(p, v, e) == Press(p, v, a);
    case _ =>
  }

  lemma {:induction false} RunKeepsError<T>(p: Policy<T>, v: View<T>, es: seq<Event<T>>)
    requires NeverClearsError(p) && v.isError
    ensures Run(p, v, es).isError
    decreases |es|
  {
    if es != [] {
      StepKeepsError(p, v, es[0]);
      RunKeepsError(p, Step(p, v, es[0]), es[1..]);
    }
  }

  /** A failing fetch leaves the rows as they were and raises the error toast. */
  lemma FetchFailureKeepsRows<T>(p: Policy<T>, v: View<T>, m: string)
    requires !p.fetch.needsParent || Truthy(v.parent)
    ensures var w := Fetch(p, v, FetchError(m));
      w.items == v.items && w.isError && w.showToast && !w.loading
      && w.toastMessage == ErrorText(p.fetch.showsErrorMessage, m, p.fetch.failMessage)
  {
  }

  /** Without a parent key a guarded fetch issues no query: the answer cannot matter. */
  lemma FetchWithoutParent<T>(p: Policy<T>, v: View<T>, r1: Fetched<T>, r2: Fetched<T>)
    requires p.fetch.needsParent && !Truthy(v.parent)
    ensures Fetch(p, v, r1) == Fetch(p, v, r2)
    ensures p.fetch.missingParentToast.None? ==> Fetch(p, v, r1) == v
  {
  }

  /** The many facts of one delete confirmation, for any screen with a delete. */
  lemma DeleteConfirmSpec<T>(p: Policy<T>, v: View<T>, o: Outcome, r: Fetched<T>)
    requires p.delete.DeleteRule?
    ensures var d := DeleteConfirm(p, v, o, r);
      var rule := p.delete;
      // a query is issued exactly when a row is selected (and the key is set, where required)
      && (d.request.Some? <==> v.selected.Some? && (rule.needsParent ==> Truthy(v.parent)))
      && (d.request.None? ==> d.view == v)
      && (d.request.Some? ==>
            && d.request.value[0] == Eq(rule.keyColumn, Str(rule.key(v.selected.value)))
            && |d.request.value| == (if rule.parentColumn.Some? then 2 else 1)
            && (rule.parentColumn.Some? ==> d.request.value[1] == Eq(rule.parentColumn.value, v.parent))
            // the confirmation closes and the toast shows on both outcomes
            && !d.view.confirmOpen && d.view.showToast && !d.view.loading)
      // a failure keeps rows and selection and reports itself
      && (d.request.Some? && o.Failed? ==>
            && d.view.items == v.items && d.view.selected == v.selected && d.view.isError
            && d.view.toastMessage == ErrorText(rule.showsErrorMessage, o.message, rule.failMessage))
      // a success clears the selection
      && (d.request.Some? && o.Done? ==> d.view.selected.None?)
  {
  }

  /** A delete that was issued and failed: the `catch` and `finally` blocks, then the alert's close. */
  lemma IssuedDeleteFailed<T>(p: Policy<T>, v: View<T>, m: string, r: Fetched<T>)
    requires p.delete.DeleteRule? && v.selected.Some? && (p.delete.needsParent ==> Truthy(v.parent))
    ensures ConfirmDelete(p, v, Failed(m), r).request == Some(DeleteQuery(p.delete, v.selected.value, v.parent))
    ensures ConfirmDelete(p, v, Failed(m), r).view
         == DeleteFailed(v, ErrorText(p.delete.showsErrorMessage, m, p.delete.failMessage))
  {
    var d := DeleteConfirm(p, v, Failed(m), r);
    assert d.view == DeleteFailed(v, ErrorText(p.delete.showsErrorMessage, m, p.delete.failMessage));
    assert d.view.(confirmOpen := false) == d.view;
  }

  /** A delete that was issued and went through: the success path from the loading state, then the alert's close. */
  lemma IssuedDeleteDone<T>(p: Policy<T>, v: View<T>, r: Fetched<T>)
    requires p.delete.DeleteRule? && v.selected.Some? && (p.delete.needsParent ==> Truthy(v.parent))
    ensures ConfirmDelete(p, v, Done, r).request == Some(DeleteQuery(p.delete, v.selected.value, v.parent))
    ensures ConfirmDelete(p, v, Done, r).view
         == DeleteSucceeded(p, p.delete.style, v.(loading := true), p.delete.successMessage(v.selected.value), r)
              .(confirmOpen := false)
  {
  }

  /**
   * What the success path leaves: no selection, the spinner off, the toast shown.
   * Where the toast is raised before an unawaited refetch, a failing refetch
   * replaces its message.
   */
  lemma SucceededFacts<T>(p: Policy<T>, style: DeleteStyle, v: View<T>, message: string, r: Fetched<T>)
    ensures var w := DeleteSucceeded(p, style, v, message, r);
      && w.selected.None? && w.showToast && !w.loading && !w.confirmOpen
      && (style.AwaitRefetch? ==> w.toastMessage == message && (style.resetsError ==> !w.isError))
      && (style.ToastInFinally? && r.Rows? && p.fetch.missingParentToast.None? ==> w.toastMessage == message)
      && (r.Rows? && (!p.fetch.needsParent || Truthy(v.parent)) ==> w.items == r.data.GetOr([]))
  {
    match style
    case AwaitRefetch(_) =>
      FetchFlags(p, v, r);
    case ToastInFinally =>
      var u := v.(toastMessage := message, selected := None, loading := false, confirmOpen := false, showToast := true);
      FetchFlags(p, u, r);
  }

  /** The alert closes itself after its handler, whatever the handler did. */
  lemma ConfirmDeleteCloses<T>(p: Policy<T>, v: View<T>, o: Outcome, r: Fetched<T>)
    ensures !ConfirmDelete(p, v, o, r).view.confirmOpen
    ensures ConfirmDelete(p, v, o, r).request == DeleteConfirm(p, v, o, r).request
  {
  }

  /** A press on a disabled icon changes nothing. */
  lemma DisabledPressIsNoOp<T>(p: Policy<T>, v: View<T>, a: Action)
    requires !Enabled(p, v, a)
    ensures Press(p, v, a) == v
  {
  }

  /** After a URL change on a screen with a reset, nothing is selected and every row is displayed. */
  lemma NavigateShowsAll<T>(p: Policy<T>, v: View<T>, key: Scalar, r: Fetched<T>)
    requires !p.reset.NoReset?
    ensures Navigate(p, v, key, r).selected.None?
    ensures Displayed(p, Navigate(p, v, key, r)) == Navigate(p, v, key, r).items
  {
    var w := Reset(p, v, key);
    ResetClearsSelection(p, v, key);
    FetchFlags(p, w, r);
    var n := Navigate(p, v, key, r);
    assert n == w || n == Fetch(p, w, r);
    assert n.search == "" && n.selected.None?;
    assert IsBlank(n.search);
  }

  /** No reset touches the spinner or the error flag. */
  lemma ResetKeepsFlags<T>(p: Policy<T>, v: View<T>, key: Scalar)
    ensures Reset(p, v, key).loading == v.loading && Reset(p, v, key).isError == v.isError
  {
    if p.reset.NoReset? {
    } else if p.reset.ClearSelectionAndSearch? {
    } else if p.reset.NewParentKeepItems? {
    } else {
    }
  }

  /** Every reset but the no-op one drops the selection and empties the search. */
  lemma ResetClearsSelection<T>(p: Policy<T>, v: View<T>, key: Scalar)
    requires !p.reset.NoReset?
    ensures Reset(p, v, key).selected.None? && Reset(p, v, key).search == ""
  {
    if p.reset.ClearSelectionAndSearch? {
    } else if p.reset.NewParentKeepItems? {
    } else {
    }
  }

  /**
   * A URL change that keeps the same key (another query parameter or the router
   * state changed) issues no fetch; on a screen that clears its rows it then
   * shows an empty table until something refetches.
   */
  lemma SameKeyNoRefetch<T>(p: Policy<T>, v: View<T>, r: Fetched<T>)
    requires p.reset.NewParentClearItems?
    ensures Navigate(p, v, v.parent, r).items == []
  {
  }
}
