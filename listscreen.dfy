/**
 * A list screen as the component holds it: one field per `useState`, updated by
 * the handlers in the order the source calls the setters.  Every method is
 * proved to leave the screen in the state the matching step function of
 * ListView describes, so the properties proved there hold of the screen.
 */
module ListScreen {
  import opened Wrappers
  import opened JsText
  import opened ListView

  class Screen<T(==)> {
    const policy: Policy<T>
    var parent: Scalar
    var items: seq<T>
    var selected: Option<T>
    var search: string
    var loading: bool
    var isError: bool
    var showToast: bool
    var toastMessage: string
    var confirmOpen: bool
    var createOpen: bool
    var updateOpen: bool

    /** The fields as one value. */
    function State(): View<T>
      reads this
    {
      View(parent, items, selected, search, loading, isError, showToast, toastMessage,
           confirmOpen, createOpen, updateOpen)
    }

    constructor (p: Policy<T>)
      ensures policy == p && State() == Initial()
    {
      policy := p;
      parent, items, selected, search := Null, [], None, "";
      loading, isError, showToast, toastMessage := false, false, false, "";
      confirmOpen, createOpen, updateOpen := false, false, false;
    }

    /** The URL effect. */
    method Reset(key: Scalar)
      modifies this
      ensures State() == ListView.Reset(policy, old(State()), key)
    {
      match policy.reset
      case NoReset =>
      case ClearSelectionAndSearch =>
        selected := None;
        search := "";
      case NewParentKeepItems =>
        parent := key;
        selected := None;
        search := "";
      case NewParentClearItems =>
        parent := key;
        selected := None;
        search := "";
        items := [];
    }

    /** The fetch function; `r` is what the `select` returned. */
    method Fetch(r: Fetched<T>)
      modifies this
      ensures State() == ListView.Fetch(policy, old(State()), r)
    {
      if policy.fetch.needsParent && !Truthy(parent) {
        if policy.fetch.missingParentToast.Some? {
          toastMessage := policy.fetch.missingParentToast.value;
          isError := true;
          showToast := true;
          loading := false;
        }
        return;
      }
      loading := true;
      match r {
        case Rows(data) =>
          items := data.GetOr([]);
        case FetchError(m) =>
          toastMessage := ErrorText(policy.fetch.showsErrorMessage, m, policy.fetch.failMessage);
          isError := true;
          showToast := true;
      }
      loading := false;
    }

    /** A URL change: the reset effect, then the fetch effect if the key changed and is truthy. */
    method Navigate(key: Scalar, r: Fetched<T>)
      modifies this
      ensures State() == ListView.Navigate(policy, old(State()), key, r)
    {
      var before := parent;
      Reset(key);
      if Scoped(policy) && key != before && Truthy(key) {
        Fetch(r);
      }
    }

    method RowClick(row: T)
      modifies this
      ensures State() == old(State()).(selected := Some(row))
    {
      selected := Some(row);
    }

    /** `onIonInput`: `e.detail.value || ''`. */
    method SetSearch(input: Option<string>)
      modifies this
      ensures State() == old(State()).(search := input.GetOr(""))
    {
      search := input.GetOr("");
    }

    method Press(a: Action)
      modifies this
      ensures State() == ListView.Press(policy, old(State()), a)
    {
      if !Enabled(policy, State(), a) {
        return;
      }
      match a
      case Add =>
        createOpen := true;
      case Edit =>
        if selected.Some? {
          updateOpen := true;
        }
      case Delete =>
        if selected.Some? {
          confirmOpen := true;
        }
    }

    /** `handleDeleteConfirm`; returns the constraints of the delete it issued, if any. */
    method DeleteConfirm(outcome: Outcome, refetch: Fetched<T>) returns (request: Option<seq<Constraint>>)
      modifies this
      ensures State() == ListView.DeleteConfirm(policy, old(State()), outcome, refetch).view
      ensures request == ListView.DeleteConfirm(policy, old(State()), outcome, refetch).request
    {
      if policy.delete.NoDelete? || selected.None? || (policy.delete.needsParent && !Truthy(parent)) {
        return None;
      }
      ghost var v := State();
      var rule := policy.delete;
      var row := selected.value;
      loading := true;
      request := Some(DeleteQuery(rule, row, parent));
      match outcome {
        case Failed(m) =>
          Failed(ErrorText(rule.showsErrorMessage, m, rule.failMessage));
        case Done =>
          assert State() == v.(loading := true);
          Succeeded(rule.style, rule.successMessage(row), refetch);
      }
    }

    /** The `catch` and `finally` blocks after a failed delete. */
    method Failed(message: string)
      modifies this
      ensures State() == DeleteFailed(old(State()), message)
    {
      toastMessage := message;
      isError := true;
      showToast := true;
      loading := false;
      confirmOpen := false;
    }

    /** The rest of `try` and the `finally` block once the delete went through. */
    method Succeeded(style: DeleteStyle, message: string, refetch: Fetched<T>)
      modifies this
      ensures State() == DeleteSucceeded(policy, style, old(State()), message, refetch)
    {
      match style {
        case AwaitRefetch(resetsError) =>
          Fetch(refetch);
          selected := None;
          Toast(message, resetsError);
          loading := false;
          confirmOpen := false;
        case ToastInFinally =>
          toastMessage := message;
          selected := None;
          loading := false;
          confirmOpen := false;
          showToast := true;
          Fetch(refetch);
      }
    }

    /** The delete button of the confirmation: the handler, then the alert's `onClose`. */
    method ConfirmDelete(outcome: Outcome, refetch: Fetched<T>) returns (request: Option<seq<Constraint>>)
      modifies this
      ensures State() == ListView.ConfirmDelete(policy, old(State()), outcome, refetch).view
      ensures request == ListView.ConfirmDelete(policy, old(State()), outcome, refetch).request
    {
      request := DeleteConfirm(outcome, refetch);
      confirmOpen := false;
    }

    /** The callback's own updates before its refetch: close a modal, drop the selection, raise the toast. */
    method Announce(message: string, closesCreate: bool, closesUpdate: bool, clearsSelection: bool, resetsError: bool)
      modifies this
      ensures State() == old(State()).(
        createOpen := if closesCreate then false else old(createOpen),
        updateOpen := if closesUpdate then false else old(updateOpen),
        selected := if clearsSelection then None else old(selected),
        toastMessage := message,
        isError := if resetsError then false else old(isError),
        showToast := true)
    {
      CloseModals(closesCreate, closesUpdate, clearsSelection);
      Toast(message, resetsError);
    }

    method CloseModals(closesCreate: bool, closesUpdate: bool, clearsSelection: bool)
      modifies this
      ensures State() == old(State()).(
        createOpen := if closesCreate then false else old(createOpen),
        updateOpen := if closesUpdate then false else old(updateOpen),
        selected := if clearsSelection then None else old(selected))
    {
      if closesCreate {
        createOpen := false;
      }
      if closesUpdate {
        updateOpen := false;
      }
      if clearsSelection {
        selected := None;
      }
    }

    method Toast(message: string, resetsError: bool)
      modifies this
      ensures State() == old(State()).(
        toastMessage := message,
        isError := if resetsError then false else old(isError),
        showToast := true)
    {
      toastMessage := message;
      if resetsError {
        isError := false;
      }
      showToast := true;
    }

    /** One of the modal callbacks. */
    method AfterSave(c: Callback, r: Fetched<T>, create: bool)
      modifies this
      ensures State() == ListView.AfterSave(policy, c, old(State()), r, create)
    {
      match c
      case NoCallback =>
      case Refetch =>
        Fetch(r);
      case RefetchAndToast(message, closesModal, clearsSelection, resetsError) =>
        Announce(message, closesModal && create, closesModal && !create, clearsSelection, resetsError);
        Fetch(r);
    }

    /** Any event of the screen. */
    method Handle(e: Event<T>)
      modifies this
      ensures State() == Step(policy, old(State()), e)
    {
      if e.Navigated? || e.Pressed? || e.Confirmed? || e.Created? || e.Updated? {
        Flow(e);
      } else {
        Local(e);
      }
    }

    /** The events whose handlers run a policy-dependent step. */
    method Flow(e: Event<T>)
      requires e.Navigated? || e.Pressed? || e.Confirmed? || e.Created? || e.Updated?
      modifies this
      ensures State() == Step(policy, old(State()), e)
    {
      match e
      case Navigated(key, r) =>
        Navigate(key, r);
      case Pressed(a) =>
        Press(a);
      case Confirmed(o, r) =>
        if confirmOpen {
          var _ := ConfirmDelete(o, r);
        }
      case Created(r) =>
        AfterSave(policy.onCreated, r, true);
      case Updated(r) =>
        AfterSave(policy.onUpdated, r, false);
    }

    /** The events that set one field. */
    method Local(e: Event<T>)
      requires !(e.Navigated? || e.Pressed? || e.Confirmed? || e.Created? || e.Updated?)
      modifies this
      ensures State() == Step(policy, old(State()), e)
    {
      match e
      case Clicked(row) => RowClick(row);
      case Searched(input) => SetSearch(input);
      case Cancelled =>
        assert Step(policy, State(), e) == State().(confirmOpen := false);
        confirmOpen := false;
      case CreateClosed =>
        assert Step(policy, State(), e) == State().(createOpen := false);
        createOpen := false;
      case UpdateClosed =>
        assert Step(policy, State(), e) == State().(updateOpen := false);
        updateOpen := false;
      case ToastClosed =>
        assert Step(policy, State(), e) == State().(showToast := false);
        showToast := false;
    }
  }
}
