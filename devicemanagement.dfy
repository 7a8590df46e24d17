/**
 * Device registrations (`deviceregistration`).  Clicking a device opens a
 * yes/no alert: "Yes" registers a pending device or deletes a registered one,
 * "No" deletes a pending device and only closes the alert for a registered one.
 */
module DeviceManagement {
  import opened Wrappers
  import opened JsText
  import opened ListView
  import Search
  import Routing

  datatype RawDevice = RawDevice(device_id: RawId, user_id: RawId, device_name: string, registered: bool,
                                 registered_at: Option<string>, created_at: string)

  /** A device as the screen stores it, both ids converted with `String`. */
  datatype Device = Device(device_id: string, user_id: string, device_name: string, registered: bool,
                           registered_at: Option<string>, created_at: string)

  function Normalize(d: RawDevice): (r: Device)
    ensures r.device_id == IdString(d.device_id) && r.user_id == IdString(d.user_id)
    ensures r.device_name == d.device_name && r.registered == d.registered
    ensures r.registered_at == d.registered_at && r.created_at == d.created_at
  {
    Device(IdString(d.device_id), IdString(d.user_id), d.device_name, d.registered, d.registered_at, d.created_at)
  }

  /** `(data || []).map(...)`: one stored device per returned row, in order. */
  function NormalizeAll(ds: seq<RawDevice>): (r: seq<Device>)
    ensures |r| == |ds|
    ensures forall i | 0 <= i < |ds| :: r[i] == Normalize(ds[i])
  {
    seq(|ds|, i requires 0 <= i < |ds| => Normalize(ds[i]))
  }

  /** The constraints of the fetch: a `user_id` filter only for a non-empty `user_id` parameter. */
  function FetchFilter(query: Routing.Query): (c: seq<Constraint>)
    ensures var u := Routing.Get(query, "user_id");
      (c != [] <==> u.Some? && u.value != "")
      && (c != [] ==> c == [Eq("user_id", Str(u.value))])
  {
    var u := Routing.Get(query, "user_id");
    if u.Some? && u.value != "" then [Eq("user_id", Str(u.value))] else []
  }

  function Fields(d: Device): seq<string> {
    [Lower(d.device_name), Lower(d.device_id), Lower(d.user_id)]
  }

  datatype DeviceView = DeviceView(
    devices: seq<Device>,
    selected: Option<Device>,
    search: string,
    loading: bool,
    isError: bool,
    showToast: bool,
    toastMessage: string,
    confirmOpen: bool)

  function Initial(): DeviceView {
    DeviceView([], None, "", false, false, false, "", false)
  }

  function Displayed(v: DeviceView): seq<Device> {
    Search.Filter(v.devices, v.search, Fields)
  }

  /** `fetchDevices`, with the backend's answer. */
  function Fetch(v: DeviceView, r: Fetched<RawDevice>): (w: DeviceView)
    ensures !w.loading && w.selected == v.selected && w.confirmOpen == v.confirmOpen
    ensures r.Rows? ==> w.devices == NormalizeAll(r.data.GetOr([])) && w.isError == v.isError
    ensures r.FetchError? ==> w.devices == v.devices && w.isError && w.showToast
                              && w.toastMessage == "Failed to load devices"
  {
    match r
    case Rows(data) => v.(devices := NormalizeAll(data.GetOr([])), loading := false)
    case FetchError(_) => v.(toastMessage := "Failed to load devices", isError := true, showToast := true, loading := false)
  }

  /** A row click selects the device and opens the alert. */
  function RowClick(v: DeviceView, d: Device): (w: DeviceView)
    ensures w.selected == Some(d) && w.confirmOpen
    ensures w.(selected := v.selected, confirmOpen := v.confirmOpen) == v
  {
    v.(selected := Some(d), confirmOpen := true)
  }

  /** The one toolbar action, disabled without a selection: the row click again on the selection. */
  function Manage(v: DeviceView): (w: DeviceView)
    ensures v.selected.None? ==> w == v
    ensures v.selected.Some? ==> w == v.(confirmOpen := true)
  {
    if v.selected.Some? then RowClick(v, v.selected.value) else v
  }

  /** The alert's header follows the selected device's state. */
  function AlertHeader(selected: Option<Device>): (h: string)
    ensures h == "Unregister Device" <==> selected.Some? && selected.value.registered
    ensures h == "Unregister Device" || h == "Register Device"
  {
    if selected.Some? && selected.value.registered then "Unregister Device" else "Register Device"
  }

  /** What a handler wrote to the backend. */
  datatype Request = DeleteDevice(device_id: string) | RegisterDevice(device_id: string, registered_at: string)

  datatype Answer = Answer(view: DeviceView, request: Option<Request>)

  /**
   * A request that went through: success toast, error flag cleared, the
   * unawaited refetch last; or the failure toast.  The alert closes either way.
   */
  function Settle(v: DeviceView, o: Outcome, success: string, failure: string, refetch: Fetched<RawDevice>): (w: DeviceView)
    ensures !w.confirmOpen && !w.loading && w.showToast && w.selected == v.selected
    ensures o.Failed? ==> w.isError && w.toastMessage == failure && w.devices == v.devices
    ensures o.Done? && refetch.Rows? ==> !w.isError && w.toastMessage == success
                                         && w.devices == NormalizeAll(refetch.data.GetOr([]))
    ensures o.Done? && refetch.FetchError? ==> w.isError && w.toastMessage == "Failed to load devices"
  {
    match o
    case Done => Fetch(v.(toastMessage := success, showToast := true, isError := false, loading := false,
                          confirmOpen := false), refetch)
    case Failed(_) => v.(toastMessage := failure, isError := true, showToast := true, loading := false,
                         confirmOpen := false)
  }

  /** "Yes": `handleRegisterDevice`, then the alert closes.  `now` is the ISO timestamp. */
  function Yes(v: DeviceView, o: Outcome, refetch: Fetched<RawDevice>, now: string): (a: Answer)
    ensures !a.view.confirmOpen
    ensures a.request.Some? <==> v.selected.Some?
    ensures a.request.Some? ==> v.selected.Some? && a.request.value == (if v.selected.value.registered
                                  then DeleteDevice(v.selected.value.device_id)
                                  else RegisterDevice(v.selected.value.device_id, now))
    ensures v.selected.None? ==> a.view == v.(confirmOpen := false)
  {
    match v.selected
    case None => Answer(v.(confirmOpen := false), None)
    case Some(d) =>
      if d.registered then
        Answer(Settle(v, o, "Device unregistered and deleted successfully", "Failed to update device", refetch),
               Some(DeleteDevice(d.device_id)))
      else
        Answer(Settle(v, o, "Device registered successfully", "Failed to update device", refetch),
               Some(RegisterDevice(d.device_id, now)))
  }

  /** "No": `handleCancelAction` for a pending device, no handler for a registered one; the alert closes. */
  function No(v: DeviceView, o: Outcome, refetch: Fetched<RawDevice>): (a: Answer)
    ensures !a.view.confirmOpen
    ensures a.request.Some? <==> v.selected.Some? && !v.selected.value.registered
    ensures a.request.Some? ==> v.selected.Some? && a.request.value == DeleteDevice(v.selected.value.device_id)
    ensures a.request.None? ==> a.view == v.(confirmOpen := false)
  {
    match v.selected
    case None => Answer(v.(confirmOpen := false), None)
    case Some(d) =>
      if d.registered then Answer(v.(confirmOpen := false), None)
      else Answer(Settle(v, o, "Device deleted successfully", "Failed to delete device", refetch),
                  Some(DeleteDevice(d.device_id)))
  }

  /** After a request the alert is closed, the spinner off and a toast shown, the success or failure one. */
  lemma SettleFlags(v: DeviceView, o: Outcome, success: string, failure: string, refetch: Fetched<RawDevice>)
    ensures var w := Settle(v, o, success, failure, refetch);
      && !w.confirmOpen && !w.loading && w.showToast && w.selected == v.selected
      && (o.Failed? ==> w.isError && w.toastMessage == failure && w.devices == v.devices)
      && (o.Done? && refetch.Rows? ==>
            !w.isError && w.devices == NormalizeAll(refetch.data.GetOr([])) && w.toastMessage == success)
  {
  }

  /** "Yes" deletes a registered device and registers a pending one at `now`; the alert closes on every outcome. */
  lemma YesActs(v: DeviceView, o: Outcome, refetch: Fetched<RawDevice>, now: string)
    requires v.selected.Some?
    ensures var a := Yes(v, o, refetch, now); var d := v.selected.value;
      && !a.view.confirmOpen && !a.view.loading && a.view.showToast
      && (d.registered ==> a.request == Some(DeleteDevice(d.device_id)))
      && (!d.registered ==> a.request == Some(RegisterDevice(d.device_id, now)))
      && (o.Failed? ==> a.view.isError && a.view.toastMessage == "Failed to update device")
      && (o.Done? && refetch.Rows? ==>
            !a.view.isError && a.view.devices == NormalizeAll(refetch.data.GetOr([]))
            && a.view.toastMessage == (if d.registered then "Device unregistered and deleted successfully"
                                       else "Device registered successfully"))
  {
    var d := v.selected.value;
    if d.registered {
      SettleFlags(v, o, "Device unregistered and deleted successfully", "Failed to update device", refetch);
    } else {
      SettleFlags(v, o, "Device registered successfully", "Failed to update device", refetch);
    }
  }

  /** "No" deletes a pending device; on a registered device it only closes the alert. */
  lemma NoActs(v: DeviceView, o: Outcome, refetch: Fetched<RawDevice>)
    requires v.selected.Some?
    ensures var a := No(v, o, refetch); var d := v.selected.value;
      && !a.view.confirmOpen
      && (d.registered ==> a == Answer(v.(confirmOpen := false), None))
      && (!d.registered ==> a.request == Some(DeleteDevice(d.device_id)) && a.view.showToast
                            && (o.Failed? ==> a.view.isError && a.view.toastMessage == "Failed to delete device"))
  {
    SettleFlags(v, o, "Device deleted successfully", "Failed to delete device", refetch);
  }

  /** No request is ever sent without a selection, whichever button is pressed. */
  lemma NothingWithoutSelection(v: DeviceView, o: Outcome, refetch: Fetched<RawDevice>, now: string)
    requires v.selected.None?
    ensures Yes(v, o, refetch, now) == Answer(v.(confirmOpen := false), None)
    ensures No(v, o, refetch) == Answer(v.(confirmOpen := false), None)
  {
  }

  /** Manage re-opens the alert for the current selection, exactly like clicking that row again. */
  lemma ManageIsRowClick(v: DeviceView)
    requires v.selected.Some?
    ensures Manage(v) == RowClick(v, v.selected.value)
    ensures AlertHeader(Manage(v).selected) == AlertHeader(v.selected)
  {
  }

  lemma SearchMatches(v: DeviceView, x: Device)
    ensures x in Displayed(v)
        <==> x in v.devices
             && (IsBlank(v.search)
                 || Contains(Lower(x.device_name), Lower(v.search))
                 || Contains(Lower(x.device_id), Lower(v.search))
                 || Contains(Lower(x.user_id), Lower(v.search)))
  {
    Search.FilterSpec(v.devices, v.search, Fields, x);
    var t := Lower(v.search);
    assert Search.AnyContains(Fields(x), t)
       <==> Contains(Fields(x)[0], t) || Contains(Fields(x)[1], t) || Contains(Fields(x)[2], t);
  }

  /** A numeric device id is searchable by its decimal digits. */
  lemma NumericIdSearchable(v: DeviceView, raw: RawDevice, n: int)
    requires raw.device_id == Numeric(n) && Normalize(raw) in v.devices
    requires v.search == IntToString(n)
    ensures Normalize(raw) in Displayed(v)
  {
    var x := Normalize(raw);
    var s := IntToString(n);
    DigitsAreLower(n);
    ContainsSelf(s);
    assert Lower(x.device_id) == s;
    SearchMatches(v, x);
  }

}
