/**
 * The user list (`user_roles` view): ban/unban and delete, each behind a
 * self/administrator guard and a modal that asks for the current admin's
 * password.
 */
module User {
  import opened Wrappers
  import opened JsText
  import opened ListView
  import Search
  import Routing

  datatype RawUser = RawUser(user_id: RawId, username: string, user_email: string, user_firstname: string,
                             user_lastname: string, date_registered: string, user_role: string, suspended: bool)

  /** A user as the screen stores it: `user_id` converted with `String`. */
  datatype Account = Account(user_id: string, username: string, user_email: string, user_firstname: string,
                             user_lastname: string, date_registered: string, user_role: string, suspended: bool)

  function Normalize(u: RawUser): (a: Account)
    ensures a.user_id == IdString(u.user_id)
    ensures a == Account(a.user_id, u.username, u.user_email, u.user_firstname, u.user_lastname,
                         u.date_registered, u.user_role, u.suspended)
  {
    Account(IdString(u.user_id), u.username, u.user_email, u.user_firstname, u.user_lastname,
            u.date_registered, u.user_role, u.suspended)
  }

  function NormalizeAll(us: seq<RawUser>): (r: seq<Account>)
    ensures |r| == |us|
    ensures forall i | 0 <= i < |us| :: r[i] == Normalize(us[i])
  {
    seq(|us|, i requires 0 <= i < |us| => Normalize(us[i]))
  }

  function Fields(a: Account): seq<string> {
    [Lower(a.username), Lower(a.user_email), Lower(a.user_firstname), Lower(a.user_lastname),
     Lower(a.user_role), Lower(a.user_id)]
  }

  /** One password modal: open flag, the typed password, its visibility, and the check's verdict (null, true, false). */
  datatype Gate = Gate(open: bool, password: string, visible: bool, verdict: Option<bool>)

  const Closed: Gate := Gate(false, "", false, None)

  datatype UserView = UserView(
    users: seq<Account>,
    selected: Option<Account>,
    search: string,
    loading: bool,
    isError: bool,
    showToast: bool,
    toastMessage: string,
    currentAdmin: Option<string>,   // the session user's id, once known
    ban: Gate,
    del: Gate)

  function Initial(): UserView {
    UserView([], None, "", false, false, false, "", None, Closed, Closed)
  }

  function Displayed(v: UserView): seq<Account> {
    Search.Filter(v.users, v.search, Fields)
  }

  /** `fetchUsers` with the backend's answer. */
  function Fetch(v: UserView, r: Fetched<RawUser>): (w: UserView)
    ensures !w.loading && w.selected == v.selected && w.ban == v.ban && w.del == v.del
    ensures r.Rows? ==> w.users == NormalizeAll(r.data.GetOr([])) && w.isError == v.isError
    ensures r.FetchError? ==> w.users == v.users && w.isError && w.showToast && w.toastMessage == "Failed to load users"
  {
    match r
    case Rows(data) => v.(users := NormalizeAll(data.GetOr([])), loading := false)
    case FetchError(_) => v.(toastMessage := "Failed to load users", isError := true, showToast := true, loading := false)
  }

  /** The effect on `location.search`: the fetch, and a toast when the query has `refresh`; the fetch lands last. */
  function OnLocation(v: UserView, query: Routing.Query, r: Fetched<RawUser>): (w: UserView)
    ensures !w.loading && w.selected == v.selected && w.ban == v.ban && w.del == v.del
    ensures r.Rows? ==> w.users == NormalizeAll(r.data.GetOr([]))
    ensures r.Rows? && Routing.Get(query, "refresh").Some? ==>
              w.showToast && w.toastMessage == "User list refreshed successfully"
    ensures r.Rows? && Routing.Get(query, "refresh").None? ==>
              w.showToast == v.showToast && w.toastMessage == v.toastMessage
    ensures r.FetchError? ==> w.showToast && w.toastMessage == "Failed to load users"
  {
    if Routing.Get(query, "refresh").Some? then Fetch(v.(toastMessage := "User list refreshed successfully", showToast := true), r)
    else Fetch(v, r)
  }

  /** What the admin lookup gives: no admin record (or a failed query), or the stored hash as a matcher. */
  datatype AdminLookup = NoAdminData | AdminData(matches: string -> bool)

  /** `checkAdminPassword`: the verdict it stores and the value it returns. */
  function CheckPassword(currentAdmin: Option<string>, password: string, lookup: AdminLookup): (r: (Option<bool>, bool))
    ensures currentAdmin.None? || password == "" ==> r == (None, false)
    ensures r.1 <==> currentAdmin.Some? && password != "" && lookup.AdminData? && lookup.matches(password)
    ensures r.0.Some? ==> r.0.value == r.1
  {
    if currentAdmin.None? || password == "" then (None, false)
    else match lookup
      case NoAdminData => (Some(false), false)
      case AdminData(matches) => (Some(matches(password)), matches(password))
  }

  /** `handle...PasswordChange`: store the password, then its verdict (null for an empty one). */
  function Typed(g: Gate, currentAdmin: Option<string>, password: string, lookup: AdminLookup): (h: Gate)
    ensures h.open == g.open && h.visible == g.visible && h.password == password
    ensures h.verdict == CheckPassword(currentAdmin, password, lookup).0
  {
    g.(password := password, verdict := if password != "" then CheckPassword(currentAdmin, password, lookup).0 else None)
  }

  /** The confirm button of a modal is enabled only after a positive verdict. */
  predicate CanConfirm(g: Gate) {
    g.verdict == Some(true)
  }

  /**
   * The modal's own close (the X of the Electron modal, or any dismissal in the
   * browser) resets it; the Electron cancel button only hides it.
   */
  function Dismiss(g: Gate, electronCancel: bool): (h: Gate)
    ensures !h.open
    ensures electronCancel ==> h == g.(open := false)
    ensures !electronCancel ==> h == Closed
  {
    if electronCancel then g.(open := false) else Closed
  }

  function ActionWord(a: Account): string {
    if a.suspended then "unban" else "ban"
  }

  /** Why a ban is refused, if it is: the admin's own account, then any other administrator. */
  function BanRefusal(currentAdmin: Option<string>, a: Account): (m: Option<string>)
    ensures m.None? <==> currentAdmin != Some(a.user_id) && a.user_role != "admin"
  {
    if currentAdmin == Some(a.user_id) then Some("You cannot " + ActionWord(a) + " your own account")
    else if a.user_role == "admin" then Some("Cannot " + ActionWord(a) + " other administrators")
    else None
  }

  function DeleteRefusal(currentAdmin: Option<string>, a: Account): (m: Option<string>)
    ensures m.None? <==> currentAdmin != Some(a.user_id) && a.user_role != "admin"
  {
    if currentAdmin == Some(a.user_id) then Some("You cannot delete your own account")
    else if a.user_role == "admin" then Some("Cannot delete other administrators")
    else None
  }

  function Refuse(v: UserView, m: string): UserView {
    v.(toastMessage := m, isError := true, showToast := true)
  }

  /** `handleBanClick`. */
  function BanClick(v: UserView): (w: UserView)
    ensures v.selected.None? ==> w == v
    ensures v.selected.Some? && BanRefusal(v.currentAdmin, v.selected.value).Some? ==>
              w.ban == v.ban && w.isError && w.showToast
              && w.toastMessage == BanRefusal(v.currentAdmin, v.selected.value).value
    ensures v.selected.Some? && BanRefusal(v.currentAdmin, v.selected.value).None? ==> w == v.(ban := v.ban.(open := true))
  {
    match v.selected
    case None => v
    case Some(a) =>
      match BanRefusal(v.currentAdmin, a)
      case Some(m) => Refuse(v, m)
      case None => v.(ban := v.ban.(open := true))
  }

  /** `handleDeleteClick`. */
  function DeleteClick(v: UserView): (w: UserView)
    ensures v.selected.None? ==> w == v
    ensures v.selected.Some? && DeleteRefusal(v.currentAdmin, v.selected.value).Some? ==>
              w.del == v.del && w.isError && w.showToast
              && w.toastMessage == DeleteRefusal(v.currentAdmin, v.selected.value).value
    ensures v.selected.Some? && DeleteRefusal(v.currentAdmin, v.selected.value).None? ==> w == v.(del := v.del.(open := true))
  {
    match v.selected
    case None => v
    case Some(a) =>
      match DeleteRefusal(v.currentAdmin, a)
      case Some(m) => Refuse(v, m)
      case None => v.(del := v.del.(open := true))
  }

  /** What the handlers write to the backend. */
  datatype Request = SetSuspended(user_id: string, suspended: bool) | DeleteUser(user_id: string)

  datatype Answer = Answer(view: UserView, request: Option<Request>)

  /**
   * `handleBanConfirm`: re-verify the typed password, then write the toggled
   * `suspended`.  On success the modal is reset and the unawaited refetch lands
   * last; on any failure the modal stays as it was.
   */
  function BanConfirm(v: UserView, lookup: AdminLookup, o: Outcome, refetch: Fetched<RawUser>): (a: Answer)
    ensures a.request.Some? <==> v.selected.Some? && v.currentAdmin.Some? && lookup.AdminData? && lookup.matches(v.ban.password)
    ensures a.request.Some? ==> v.selected.Some?
                                && a.request.value == SetSuspended(v.selected.value.user_id, !v.selected.value.suspended)
    ensures a.view.ban.open ==> v.ban.open
    ensures a.request.Some? && o.Done? ==> a.view.ban == Closed
    ensures !(a.request.Some? && o.Done?) ==> a.view.ban == v.ban && a.view.users == v.users
    ensures v.selected.Some? && v.currentAdmin.Some? && !(a.request.Some? && o.Done?) ==> a.view.isError && a.view.showToast
  {
    if v.selected.None? || v.currentAdmin.None? then Answer(v, None)
    else
      var a := v.selected.value;
      match lookup
      case NoAdminData => Answer(Refuse(v, "Admin verification failed").(loading := false), None)
      case AdminData(matches) =>
        if !matches(v.ban.password) then Answer(Refuse(v, "Invalid admin password").(loading := false), None)
        else
          var request := Some(SetSuspended(a.user_id, !a.suspended));
          match o
          case Failed(_) => Answer(Refuse(v, "Failed to update user status").(loading := false), request)
          case Done =>
            var word := if !a.suspended then "banned" else "unbanned";
            Answer(Fetch(v.(toastMessage := "User " + a.username + " has been " + word + " successfully",
                            showToast := true, ban := Closed, loading := false), refetch), request)
  }

  /** `handleDeleteConfirm`: the same shape, with the delete modal's password and `auth.admin.deleteUser`. */
  function DeleteConfirm(v: UserView, lookup: AdminLookup, o: Outcome, refetch: Fetched<RawUser>): (a: Answer)
    ensures a.request.Some? <==> v.selected.Some? && v.currentAdmin.Some? && lookup.AdminData? && lookup.matches(v.del.password)
    ensures a.request.Some? ==> v.selected.Some? && a.request.value == DeleteUser(v.selected.value.user_id)
    ensures a.view.del.open ==> v.del.open
    ensures a.request.Some? && o.Done? ==> a.view.del == Closed
    ensures !(a.request.Some? && o.Done?) ==> a.view.del == v.del && a.view.users == v.users
    ensures v.selected.Some? && v.currentAdmin.Some? && !(a.request.Some? && o.Done?) ==> a.view.isError && a.view.showToast
  {
    if v.selected.None? || v.currentAdmin.None? then Answer(v, None)
    else
      var a := v.selected.value;
      match lookup
      case NoAdminData => Answer(Refuse(v, "Admin verification failed").(loading := false), None)
      case AdminData(matches) =>
        if !matches(v.del.password) then Answer(Refuse(v, "Invalid admin password").(loading := false), None)
        else
          var request := Some(DeleteUser(a.user_id));
          match o
          case Failed(_) => Answer(Refuse(v, "Failed to delete user").(loading := false), request)
          case Done =>
            Answer(Fetch(v.(toastMessage := "User " + a.username + " has been deleted successfully",
                            showToast := true, del := Closed, loading := false), refetch), request)
  }

  /** `handleUpdateClick`: a placeholder toast. */
  function UpdateClick(v: UserView): (w: UserView)
    ensures v.selected.None? ==> w == v
    ensures v.selected.Some? ==> w == v.(toastMessage := "Update functionality for " + v.selected.value.username
                                                         + " coming soon!", showToast := true)
  {
    if v.selected.Some? then
      v.(toastMessage := "Update functionality for " + v.selected.value.username + " coming soon!", showToast := true)
    else v
  }

  /** `getBanButtonConfig`. */
  datatype BanButton = BanButton(title: string, disabled: bool)

  function BanButtonConfig(selected: Option<Account>): (b: BanButton)
    ensures b.disabled <==> selected.None?
    ensures b.title == "Unban User" <==> selected.Some? && selected.value.suspended
    ensures b.title == "Unban User" || b.title == "Ban User"
  {
    if selected.None? then BanButton("Ban User", true)
    else if selected.value.suspended then BanButton("Unban User", false)
    else BanButton("Ban User", false)
  }

  function AddUserTarget(electron: bool): (t: Routing.Target<()>)
    ensures t.path == "/menu/people/register" && t.query == [] && t.state.None?
  {
    Routing.Go(electron, "/menu/people/register", [], None)
  }

  /** `handleCheckDevice`: the device screen filtered by the selected user's id. */
  function CheckDeviceTarget(selected: Option<Account>, electron: bool): (t: Option<Routing.Target<()>>)
    ensures t.Some? <==> selected.Some?
    ensures t.Some? ==> t.value.path == "/menu/people/devices"
                        && Routing.Get(t.value.query, "user_id") == Some(selected.value.user_id)
  {
    match selected
    case None => None
    case Some(a) => Some(Routing.Go(electron, "/menu/people/devices", [("user_id", a.user_id)], None))
  }

  // ---------------------------------------------------------------------------

  lemma SearchSpec(v: UserView, x: Account)
    ensures Search.IsSubsequence(Displayed(v), v.users)
    ensures IsBlank(v.search) ==> Displayed(v) == v.users
    ensures x in Displayed(v)
        <==> x in v.users && (IsBlank(v.search) || exists k | 0 <= k < 6 :: Contains(Fields(x)[k], Lower(v.search)))
  {
    Search.FilterSpec(v.users, v.search, Fields, x);
  }

  /**
   * The term is lower-cased but not trimmed: a term with a leading space finds a
   * user only through a column that holds a space, whatever follows the space.
   */
  lemma SpacesTakePart(v: UserView, x: Account)
    requires x in v.users
    requires |v.search| > 0 && v.search[0] == ' ' && !IsBlank(v.search)
    requires forall k, j | 0 <= k < 6 && 0 <= j < |Fields(x)[k]| :: Fields(x)[k][j] != ' '
    ensures x !in Displayed(v)
  {
    SearchSpec(v, x);
    var t := Lower(v.search);
    forall k | 0 <= k < 6
      ensures !Contains(Fields(x)[k], t)
    {
      FirstCharAbsent(Fields(x)[k], t);
    }
  }

  /** Ban and delete on one's own account or on an administrator raise an error toast and open no modal. */
  lemma GuardsRefuse(v: UserView)
    requires v.selected.Some?
    requires v.currentAdmin == Some(v.selected.value.user_id) || v.selected.value.user_role == "admin"
    ensures var b := BanClick(v); b.isError && b.showToast && b.ban == v.ban
    ensures var d := DeleteClick(v); d.isError && d.showToast && d.del == v.del
  {
  }

  /** Otherwise the modal opens, and nothing else changes. */
  lemma GuardsAdmit(v: UserView)
    requires v.selected.Some?
    requires v.currentAdmin != Some(v.selected.value.user_id) && v.selected.value.user_role != "admin"
    ensures BanClick(v) == v.(ban := v.ban.(open := true))
    ensures DeleteClick(v) == v.(del := v.del.(open := true))
  {
  }

  /** A confirmed ban writes the toggled `suspended` of the selected user. */
  lemma BanToggles(v: UserView, matches: string -> bool, o: Outcome, refetch: Fetched<RawUser>)
    requires v.selected.Some? && v.currentAdmin.Some? && matches(v.ban.password)
    ensures BanConfirm(v, AdminData(matches), o, refetch).request
         == Some(SetSuspended(v.selected.value.user_id, !v.selected.value.suspended))
    ensures o.Done? ==> !BanConfirm(v, AdminData(matches), o, refetch).view.ban.open
    ensures !BanConfirm(v, AdminData(matches), o, refetch).view.loading
  {
  }

  /** A wrong password raises "Invalid admin password" and writes nothing. */
  lemma WrongPasswordWritesNothing(v: UserView, matches: string -> bool, o: Outcome, refetch: Fetched<RawUser>)
    requires v.selected.Some? && v.currentAdmin.Some?
    ensures !matches(v.ban.password) ==>
      var a := BanConfirm(v, AdminData(matches), o, refetch);
      a.request.None? && a.view.toastMessage == "Invalid admin password" && a.view.isError && a.view.ban == v.ban
    ensures !matches(v.del.password) ==>
      var a := DeleteConfirm(v, AdminData(matches), o, refetch);
      a.request.None? && a.view.toastMessage == "Invalid admin password" && a.view.isError && a.view.del == v.del
  {
  }

  /** Without an admin session the handlers do nothing at all. */
  lemma NoSessionNoRequest(v: UserView, lookup: AdminLookup, o: Outcome, refetch: Fetched<RawUser>)
    requires v.currentAdmin.None?
    ensures BanConfirm(v, lookup, o, refetch) == Answer(v, None)
    ensures DeleteConfirm(v, lookup, o, refetch) == Answer(v, None)
  {
  }

  /** A deleted user stays selected: the handler never clears the selection. */
  lemma DeletedUserStaysSelected(v: UserView, matches: string -> bool, refetch: Fetched<RawUser>)
    requires v.selected.Some? && v.currentAdmin.Some? && matches(v.del.password)
    ensures var a := DeleteConfirm(v, AdminData(matches), Done, refetch);
      a.view.selected == v.selected && a.request == Some(DeleteUser(v.selected.value.user_id))
  {
  }

  /** With an empty password or no session the verdict is null and the check answers false. */
  lemma EmptyPasswordUnknown(currentAdmin: Option<string>, lookup: AdminLookup, g: Gate)
    ensures CheckPassword(currentAdmin, "", lookup) == (None, false)
    ensures CheckPassword(None, g.password, lookup) == (None, false)
    ensures !CanConfirm(Typed(g, currentAdmin, "", lookup))
  {
  }

  /** The confirm button is enabled exactly when the typed password matched the admin's hash. */
  lemma ConfirmNeedsMatch(g: Gate, currentAdmin: Option<string>, password: string, lookup: AdminLookup)
    ensures CanConfirm(Typed(g, currentAdmin, password, lookup))
        <==> currentAdmin.Some? && password != "" && lookup.AdminData? && lookup.matches(password)
  {
  }

  /**
   * The Electron cancel button keeps the verdict: a modal re-opened for another
   * user is already confirmable, although the handler checks the password again.
   */
  lemma CancelKeepsVerdict(g: Gate)
    requires CanConfirm(g)
    ensures CanConfirm(Dismiss(g, true).(open := true))
    ensures !CanConfirm(Dismiss(g, false))
  {
  }

  /** After a fetch, loading is off; a failed fetch keeps the old list. */
  lemma FetchEnds(v: UserView, r: Fetched<RawUser>, m: string)
    ensures !Fetch(v, r).loading
    ensures Fetch(v, FetchError(m)).users == v.users
  {
  }

  /** Every stored user_id reads back as the numeric id the backend sent. */
  lemma StoredIdsReadBack(us: seq<RawUser>, i: nat)
    requires i < |us| && us[i].user_id.Numeric?
    ensures ParseInt(NormalizeAll(us)[i].user_id) == us[i].user_id.number
  {
  }
}
