/**
 * The user screen as the component holds it: the list fields plus the two
 * password modals.  Every handler is proved to leave the screen in the state
 * the matching function of User describes.
 */
module UserScreen {
  import opened Wrappers
  import opened ListView
  import Routing
  import U = User
  import DeviceManagement

  class Screen {
    var users: seq<U.Account>
    var selected: Option<U.Account>
    var search: string
    var loading: bool
    var isError: bool
    var showToast: bool
    var toastMessage: string
    var currentAdmin: Option<string>
    var ban: U.Gate
    var del: U.Gate

    function State(): U.UserView
      reads this
    {
      U.UserView(users, selected, search, loading, isError, showToast, toastMessage, currentAdmin, ban, del)
    }

    constructor ()
      ensures State() == U.Initial()
    {
      users, selected, search := [], None, "";
      loading, isError, showToast, toastMessage := false, false, false, "";
      currentAdmin, ban, del := None, U.Closed, U.Closed;
    }

    /** The session effect: the admin is recorded only when the session has a user. */
    method SessionLoaded(sessionUser: Option<string>)
      modifies this
      ensures State() == if sessionUser.Some? then old(State()).(currentAdmin := sessionUser) else old(State())
    {
      if sessionUser.Some? {
        currentAdmin := sessionUser;
      }
    }

    /** `fetchUsers`: every row's `user_id` goes through `String` before it is stored. */
    method Fetch(r: Fetched<U.RawUser>)
      modifies this
      ensures State() == U.Fetch(old(State()), r)
    {
      loading := true;
      match r {
        case Rows(data) =>
          var rows := data.GetOr([]);
          var stored: seq<U.Account> := [];
          var i := 0;
          while i < |rows|
            invariant 0 <= i <= |rows|
            invariant stored == U.NormalizeAll(rows[..i])
          {
            assert rows[..i + 1] == rows[..i] + [rows[i]];
            stored := stored + [U.Normalize(rows[i])];
            i := i + 1;
          }
          assert rows[..i] == rows;
          users := stored;
        case FetchError(_) =>
          toastMessage := "Failed to load users";
          isError := true;
          showToast := true;
      }
      loading := false;
    }

    /** The effect on `location.search`. */
    method OnLocation(query: Routing.Query, r: Fetched<U.RawUser>)
      modifies this
      ensures State() == U.OnLocation(old(State()), query, r)
    {
      if Routing.Get(query, "refresh").Some? {
        toastMessage := "User list refreshed successfully";
        showToast := true;
      }
      Fetch(r);
    }

    method RowClick(row: U.Account)
      modifies this
      ensures State() == old(State()).(selected := Some(row))
    {
      selected := Some(row);
    }

    method SetSearch(input: Option<string>)
      modifies this
      ensures State() == old(State()).(search := input.GetOr(""))
    {
      search := input.GetOr("");
    }

    /** A keystroke in one of the password fields: the ban modal's when `ofBan`, else the delete modal's. */
    method TypePassword(ofBan: bool, password: string, lookup: U.AdminLookup)
      modifies this
      ensures ofBan ==> State() == old(State()).(ban := U.Typed(old(ban), currentAdmin, password, lookup))
      ensures !ofBan ==> State() == old(State()).(del := U.Typed(old(del), currentAdmin, password, lookup))
    {
      var verdict: Option<bool> := None;
      if password != "" {
        verdict := U.CheckPassword(currentAdmin, password, lookup).0;
      }
      if ofBan {
        ban := ban.(password := password, verdict := verdict);
      } else {
        del := del.(password := password, verdict := verdict);
      }
    }

    /** The eye button beside a password field. */
    method ToggleVisible(ofBan: bool)
      modifies this
      ensures ofBan ==> State() == old(State()).(ban := old(ban).(visible := !old(ban).visible))
      ensures !ofBan ==> State() == old(State()).(del := old(del).(visible := !old(del).visible))
    {
      if ofBan {
        ban := ban.(visible := !ban.visible);
      } else {
        del := del.(visible := !del.visible);
      }
    }

    /** Closing a modal: the Electron cancel button, or the modal's own close. */
    method Dismiss(ofBan: bool, electronCancel: bool)
      modifies this
      ensures ofBan ==> State() == old(State()).(ban := U.Dismiss(old(ban), electronCancel))
      ensures !ofBan ==> State() == old(State()).(del := U.Dismiss(old(del), electronCancel))
    {
      if ofBan {
        if electronCancel {
          ban := ban.(open := false);
        } else {
          ban := U.Closed;
        }
      } else {
        if electronCancel {
          del := del.(open := false);
        } else {
          del := U.Closed;
        }
      }
    }

    method BanClick()
      modifies this
      ensures State() == U.BanClick(old(State()))
    {
      if selected.None? {
        return;
      }
      var a := selected.value;
      if Some(a.user_id) == currentAdmin {
        toastMessage := "You cannot " + U.ActionWord(a) + " your own account";
        isError := true;
        showToast := true;
        return;
      }
      if a.user_role == "admin" {
        toastMessage := "Cannot " + U.ActionWord(a) + " other administrators";
        isError := true;
        showToast := true;
        return;
      }
      ban := ban.(open := true);
    }

    method DeleteClick()
      modifies this
      ensures State() == U.DeleteClick(old(State()))
    {
      if selected.None? {
        return;
      }
      var a := selected.value;
      if Some(a.user_id) == currentAdmin {
        toastMessage := "You cannot delete your own account";
        isError := true;
        showToast := true;
        return;
      }
      if a.user_role == "admin" {
        toastMessage := "Cannot delete other administrators";
        isError := true;
        showToast := true;
        return;
      }
      del := del.(open := true);
    }

    /** `handleBanConfirm`; returns the write it issued, if any. */
    method BanConfirm(lookup: U.AdminLookup, o: Outcome, refetch: Fetched<U.RawUser>) returns (request: Option<U.Request>)
      modifies this
      ensures State() == U.BanConfirm(old(State()), lookup, o, refetch).view
      ensures request == U.BanConfirm(old(State()), lookup, o, refetch).request
    {
      if selected.None? || currentAdmin.None? {
        return None;
      }
      var a := selected.value;
      loading := true;
      if lookup.NoAdminData? || !lookup.matches(ban.password) {
        toastMessage := if lookup.NoAdminData? then "Admin verification failed" else "Invalid admin password";
        isError := true;
        showToast := true;
        loading := false;
        return None;
      }
      request := Some(U.SetSuspended(a.user_id, !a.suspended));
      match o {
        case Failed(_) =>
          toastMessage := "Failed to update user status";
          isError := true;
          showToast := true;
        case Done =>
          toastMessage := "User " + a.username + " has been " + (if !a.suspended then "banned" else "unbanned")
                          + " successfully";
          showToast := true;
          ban := U.Closed;
      }
      loading := false;
      if o.Done? {
        Fetch(refetch);
      }
    }

    /** `handleDeleteConfirm`; returns the deletion it issued, if any. */
    method DeleteConfirm(lookup: U.AdminLookup, o: Outcome, refetch: Fetched<U.RawUser>) returns (request: Option<U.Request>)
      modifies this
      ensures State() == U.DeleteConfirm(old(State()), lookup, o, refetch).view
      ensures request == U.DeleteConfirm(old(State()), lookup, o, refetch).request
    {
      if selected.None? || currentAdmin.None? {
        return None;
      }
      var a := selected.value;
      loading := true;
      if lookup.NoAdminData? || !lookup.matches(del.password) {
        toastMessage := if lookup.NoAdminData? then "Admin verification failed" else "Invalid admin password";
        isError := true;
        showToast := true;
        loading := false;
        return None;
      }
      request := Some(U.DeleteUser(a.user_id));
      match o {
        case Failed(_) =>
          toastMessage := "Failed to delete user";
          isError := true;
          showToast := true;
        case Done =>
          toastMessage := "User " + a.username + " has been deleted successfully";
          showToast := true;
          del := U.Closed;
      }
      loading := false;
      if o.Done? {
        Fetch(refetch);
      }
    }

    method UpdateClick()
      modifies this
      ensures State() == U.UpdateClick(old(State()))
    {
      if selected.Some? {
        toastMessage := "Update functionality for " + selected.value.username + " coming soon!";
        showToast := true;
      }
    }

    method ToastClosed()
      modifies this
      ensures State() == old(State()).(showToast := false)
    {
      showToast := false;
    }
  }

  /**
   * Check Device, end to end: the device screen reached from the selected user
   * asks for exactly that user's devices.
   */
  method CheckDevice(s: Screen, electron: bool) returns (filter: Option<seq<Constraint>>)
    ensures s.selected.None? ==> filter.None?
    ensures s.selected.Some? ==> filter == Some(if s.selected.value.user_id == "" then []
                                                else [Eq("user_id", Str(s.selected.value.user_id))])
  {
    var target := U.CheckDeviceTarget(s.selected, electron);
    filter := None;
    if target.Some? {
      filter := Some(DeviceManagement.FetchFilter(target.value.query));
    }
  }
}
