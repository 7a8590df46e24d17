/**
 * The device screen as the component holds it, one field per `useState`; each
 * handler is proved to leave the state its DeviceManagement function describes.
 */
module DeviceScreen {
  import opened Wrappers
  import opened ListView
  import D = DeviceManagement

  class Screen {
    var devices: seq<D.Device>
    var selected: Option<D.Device>
    var search: string
    var loading: bool
    var isError: bool
    var showToast: bool
    var toastMessage: string
    var confirmOpen: bool

    function State(): D.DeviceView
      reads this
    {
      D.DeviceView(devices, selected, search, loading, isError, showToast, toastMessage, confirmOpen)
    }

    constructor ()
      ensures State() == D.Initial()
    {
      devices, selected, search := [], None, "";
      loading, isError, showToast, toastMessage, confirmOpen := false, false, false, "", false;
    }

    method Fetch(r: Fetched<D.RawDevice>)
      modifies this
      ensures State() == D.Fetch(old(State()), r)
    {
      loading := true;
      match r {
        case Rows(data) =>
          var rows := data.GetOr([]);
          var stored: seq<D.Device> := [];
          var i := 0;
          while i < |rows|
            invariant 0 <= i <= |rows|
            invariant stored == D.NormalizeAll(rows[..i])
          {
            stored := stored + [D.Normalize(rows[i])];
            i := i + 1;
          }
          assert rows[..i] == rows;
          devices := stored;
        case FetchError(_) =>
          toastMessage := "Failed to load devices";
          isError := true;
          showToast := true;
      }
      loading := false;
    }

    method RowClick(d: D.Device)
      modifies this
      ensures State() == D.RowClick(old(State()), d)
    {
      selected := Some(d);
      confirmOpen := true;
    }

    method Manage()
      modifies this
      ensures State() == D.Manage(old(State()))
    {
      if selected.Some? {
        RowClick(selected.value);
      }
    }

    method SetSearch(input: Option<string>)
      modifies this
      ensures State() == old(State()).(search := input.GetOr(""))
    {
      search := input.GetOr("");
    }

    method Settle(o: Outcome, success: string, failure: string, refetch: Fetched<D.RawDevice>)
      modifies this
      ensures State() == D.Settle(old(State()), o, success, failure, refetch)
    {
      match o {
        case Done =>
          toastMessage := success;
          showToast := true;
          isError := false;
          loading := false;
          confirmOpen := false;
          Fetch(refetch);
        case Failed(_) =>
          toastMessage := failure;
          isError := true;
          showToast := true;
          loading := false;
          confirmOpen := false;
      }
    }

    method Yes(o: Outcome, refetch: Fetched<D.RawDevice>, now: string) returns (request: Option<D.Request>)
      modifies this
      ensures State() == D.Yes(old(State()), o, refetch, now).view
      ensures request == D.Yes(old(State()), o, refetch, now).request
    {
      if selected.None? {
        confirmOpen := false;
        return None;
      }
      var d := selected.value;
      loading := true;
      if d.registered {
        request := Some(D.DeleteDevice(d.device_id));
        Settle(o, "Device unregistered and deleted successfully", "Failed to update device", refetch);
      } else {
        request := Some(D.RegisterDevice(d.device_id, now));
        Settle(o, "Device registered successfully", "Failed to update device", refetch);
      }
    }

    method No(o: Outcome, refetch: Fetched<D.RawDevice>) returns (request: Option<D.Request>)
      modifies this
      ensures State() == D.No(old(State()), o, refetch).view
      ensures request == D.No(old(State()), o, refetch).request
    {
      if selected.None? || selected.value.registered {
        confirmOpen := false;
        return None;
      }
      var d := selected.value;
      loading := true;
      request := Some(D.DeleteDevice(d.device_id));
      Settle(o, "Device deleted successfully", "Failed to delete device", refetch);
    }
  }

}
