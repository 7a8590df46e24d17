# Taxmap admin screens: a Dafny model

This project models the administration front end of a property-tax map
(ArkDriveDev/Taxmap-Admin-Vercel, a React/Ionic application on a Supabase
backend). It covers the reference-data list screens of the Home section
(classifications, subclasses and their rates, kinds and assessment levels,
districts' barangays and tax rates, structures and building codes, building
components and sub-components, land adjustments), the People section (declarant
forms, users, devices), and the two Electron tab hosts that pick a screen from
the pathname.

Each list screen keeps the same state: a parent key taken from the URL, the
fetched rows, the selected row, the search term, loading/error/toast flags and
the create, update and delete dialogs. It runs the same handlers. The screens
differ in a few constants: which URL reset they run, which toolbar buttons exist, whether the fetch needs the
parent key, how the delete is keyed and where its toast is raised, and what the
modal callbacks do.

## How the model is built

- `ListView` states the shared handlers as pure step functions of a `View`
  and a per-screen `Policy`, and proves the shared properties once:
  - what a fetch, a delete and a callback do to the flags;
  - loading always ends;
  - the error flag is sticky where no handler resets it;
  - a delete is keyed by the selected row and the parent.
- `ListScreen.Screen` is the component as a class, one field per `useState`.
  Every method is proved to leave the fields as the matching `ListView` function
  says. Screens with extra state wrap it: `BuildingCode.Screen`,
  `BuildingSubCom.Screen` and `Classification.Screen`.
- `Search.Filter` is the `filteredData` memo every screen uses:
  - a blank term (after `trim()`) gives the list unchanged;
  - otherwise it keeps, in order, the rows for which one of the screen's
    columns contains the lower-cased term.
- One module per screen holds:
  - the row type and the searched columns;
  - the `Rules` constant;
  - the screen-specific handlers;
  - lemmas that state the screen's properties in its own terms.
  The line ranges cited for `ListView` and `ListScreen` are one representative
  screen. All the screens cite their own lines.
- `User`/`UserScreen` and `DeviceManagement`/`DeviceScreen` have their own
  state and handlers. The pure module states each handler as a function; the
  class is proved to follow it.
- `Tabs` is the pathname-to-tab chain of `includes` tests shared by `HomeTabs`
  and `PeopleTabs`.

JavaScript semantics are written out:
- **Truthiness:** null, `""`, `0` and `NaN` are false.
- **`x || ''`:** modelled as `GetOr("")`.
- **`${null}`:** prints `null`.
- **`String(n)`:** the integer's decimal digits.
- **`URLSearchParams.get`:** the first value.
- **Unawaited refetch:** a refetch that a handler does not await lands after the
  handler's own updates. An awaited one lands where the handler awaits it.

Backend answers are parameters of the handlers:
- rows or an error for a select;
- success or an error for a write;
- a count or an exception for the usage check;
- a matcher for the stored password hash.

Points where the screens depart from the common list pattern:
- the error flag is separate state that most screens never reset;
- the tax-rate fetch raises its own "District ID is missing" toast;
- the subclass screen keeps its rows when the class changes;
- the declarant screen has no create action, so there is no refetch after a create.

## Model

| member | source | states |
|---|---|---|
| ListView.Reset | src/pages/Home.tabs/BuildingSubCom.tsx:303-335 | A URL change keeps the spinner and error flag; every reset clears selection and search; a scoped screen stores the new key, and only the clearing reset empties the rows |
| ListView.Fetch | src/pages/Home.tabs/BuildingSubCom.tsx:338-360 | The fetch keeps selection, search, key and dialogs; without a required key and toast it changes nothing; otherwise it ends loading and either replaces the rows or keeps them and raises the error toast |
| ListView.Navigate | src/pages/Home.tabs/BuildingSubCom.tsx:303-366 | The reset then the fetch: the key stored on a scoped screen, selection and search cleared, no refetch for an unchanged or falsy key, loading never left on |
| ListView.Press | src/pages/Home.tabs/BuildingSubCom.tsx:386-400 | A press opens exactly the dialog of an enabled button and changes nothing else |
| ListView.Enabled | src/pages/Home.tabs/BuildingSubCom.tsx:456-460 | Edit and delete need a selection; a missing button is never enabled; add needs a truthy key unless it is always on |
| ListView.DeleteSucceeded | src/pages/Home.tabs/BuildingSubCom.tsx:412-421 | A successful delete clears the selection, shows the toast, closes the alert and ends loading; with the awaited refetch the success message is the final toast |
| ListView.DeleteFailed | src/pages/Home.tabs/BuildingSubCom.tsx:422-430 | A failed delete raises the error toast with its message, ends loading, closes the alert and keeps rows, selection and key |
| ListView.DeleteConfirm | src/pages/Home.tabs/BuildingSubCom.tsx:402-431 | A delete query is issued iff the screen deletes, a row is selected and any required key is set; it is the selected row's query; with no query the state is unchanged |
| ListView.DeleteQuery | src/pages/Home.tabs/BuildingSubCom.tsx:407-411 | The first `.eq` is the row's key column and key; a second one, on the parent column and key, exists exactly when the screen has a parent column |
| ListView.ConfirmDelete | src/pages/Home.tabs/BuildingSubCom.tsx:544-558 | The alert button runs the handler and the alert closes whatever the handler did, with the same request |
| ListView.AfterSave | src/pages/Home.tabs/BuildingSubCom.tsx:441-454 | A modal callback keeps the key, never leaves loading on, closes the named modal, clears the selection only where the callback does, and shows its toast |
| ListView.Step | src/pages/Home.tabs/BuildingSubCom.tsx:382-563 | Only a URL change moves the key; only a URL change, a delete or a modal callback replaces the rows |
| ListView.Run | src/pages/Home.tabs/BuildingSubCom.tsx:303-563 | Over any run of events without a URL change the key stays put |
| ListView.FromQuery | src/pages/Home.tabs/BuildingSubCom.tsx:303-310 | The stored key is null exactly when the query has no such parameter, else the parameter's text |
| ListView.Truthy | src/pages/Home.tabs/BuildingSubCom.tsx:339 | A key is falsy exactly when it is null, the empty string, NaN or 0 |
| ListView.Mount | src/pages/Home.tabs/BuildingSubCom.tsx:303-366 | The first render ends with loading off, nothing selected, an empty search and every dialog closed; a scoped screen holds the URL key; without a truthy key it shows no rows and no error; a fetch that runs either shows its rows or keeps the list empty with the error toast |
| ListView.Displayed | src/pages/Home.tabs/BuildingSubCom.tsx:369-380 | The table shows rows of the list, no more of them; a blank search shows the whole list (the full iff is `Search.FilterSpec`) |
| ListView.IdString | src/pages/People.tabs/User.tsx:355-358 | `String(id)` of a text id is the text; of a numeric id, text that reads back as that number |
| ListView.ErrorText | src/pages/Home.tabs/BuildingSubCom.tsx:350-357 | The toast is the fallback message, or the error's own non-empty message on screens that show it |
| ListView.FetchFlags | src/pages/Home.tabs/BuildingSubCom.tsx:338-360 | A fetch ends with loading off, never clears the error flag, and leaves selection, search and parent key alone |
| ListView.DeleteConfirmFlags | src/pages/Home.tabs/BuildingSubCom.tsx:402-431 | The delete ends with loading off and keeps the error flag on screens whose handlers never reset it |
| ListView.AfterSaveFlags | src/pages/Home.tabs/BuildingSubCom.tsx:441-454 | A create/update callback ends with loading off; only a callback that resets the error flag clears it |
| ListView.ResetKeepsFlags | src/pages/Home.tabs/BuildingSubCom.tsx:303-310 | No URL reset touches the spinner or the error flag |
| ListView.ResetClearsSelection | src/pages/Home.tabs/BuildingSubCom.tsx:303-310 | Every URL reset but the absent one drops the selection and empties the search |
| ListView.IssuedDeleteFailed | src/pages/Home.tabs/BuildingSubCom.tsx:402-431 | A delete that was sent and failed carries the row's key, raises the error toast, sets the error flag, keeps rows and selection, and closes the dialog |
| ListView.IssuedDeleteDone | src/pages/Home.tabs/BuildingSubCom.tsx:402-431 | A delete that was sent and went through carries the row's key and runs the success path from the loading state |
| ListView.SucceededFacts | src/pages/Home.tabs/BuildingSubCom.tsx:412-430 | The success path clears the selection, ends loading and shows the toast. Awaited refetch: its message stays. Toast in `finally`: a refetch that succeeds keeps the message. A successful refetch replaces the rows |
| ListView.StepEndsLoading | src/pages/Home.tabs/BuildingSubCom.tsx:338-460 | No handler leaves the screen loading once it has returned |
| ListView.RunEndsLoading | src/pages/Home.tabs/BuildingSubCom.tsx:338-460 | Any sequence of events ends with loading off |
| ListView.MountEndsLoading | src/pages/Home.tabs/BuildingSubCom.tsx:303-366 | From the mounted screen, any sequence of events ends with loading off |
| ListView.StepKeepsError | src/pages/Home.tabs/BuildingSubCom.tsx:293-454 | On a screen whose handlers never reset it, no event clears the error flag |
| ListView.RunKeepsError | src/pages/Home.tabs/BuildingSubCom.tsx:293-454 | ... nor does any sequence of events |
| ListView.FetchFailureKeepsRows | src/pages/Home.tabs/BuildingSubCom.tsx:350-359 | A failed fetch keeps the rows, sets the error flag and its toast, and ends loading |
| ListView.FetchWithoutParent | src/pages/Home.tabs/BuildingSubCom.tsx:338-341 | Without a truthy parent key a scoped fetch issues no query; it changes nothing unless the screen has a missing-key toast |
| ListView.DeleteConfirmSpec | src/pages/Home.tabs/BuildingSubCom.tsx:402-431 | A delete is issued iff a row is selected (and the key is set where needed). It is keyed by the row's id and the parent column. It closes the dialog and toasts on both outcomes. A failure keeps rows and selection; a success clears the selection |
| ListView.ConfirmDeleteCloses | src/pages/Home.tabs/BuildingSubCom.tsx:544-558 | The alert's delete button closes the dialog whatever the handler did, and issues the handler's request |
| ListView.DisabledPressIsNoOp | src/pages/Home.tabs/BuildingSubCom.tsx:456-460 | A disabled toolbar button does nothing |
| ListView.NavigateShowsAll | src/pages/Home.tabs/BuildingSubCom.tsx:303-310 | After a URL change the selection is gone and the whole list is shown |
| ListView.SameKeyNoRefetch | src/pages/Home.tabs/BuildingSubCom.tsx:303-366 | When the URL keeps the same key, the rows are cleared and not fetched again |
| ListScreen.Screen.constructor | src/pages/Home.tabs/BuildingSubCom.tsx:284-300 | The screen starts in the initial state |
| ListScreen.Screen.Reset | src/pages/Home.tabs/BuildingSubCom.tsx:303-310 | The URL effect leaves the fields as `ListView.Reset` says |
| ListScreen.Screen.Fetch | src/pages/Home.tabs/BuildingSubCom.tsx:338-360 | The fetch leaves the fields as `ListView.Fetch` says |
| ListScreen.Screen.Navigate | src/pages/Home.tabs/BuildingSubCom.tsx:303-366 | The reset effect then the fetch effect, as `ListView.Navigate` |
| ListScreen.Screen.RowClick | src/pages/Home.tabs/BuildingSubCom.tsx:382-384 | A row click selects the row and changes nothing else |
| ListScreen.Screen.SetSearch | src/pages/Home.tabs/BuildingSubCom.tsx:603-606 | The search input stores its value, or `''` for null |
| ListScreen.Screen.Press | src/pages/Home.tabs/BuildingSubCom.tsx:386-400 | Toolbar buttons, as `ListView.Press` |
| ListScreen.Screen.DeleteConfirm | src/pages/Home.tabs/BuildingSubCom.tsx:402-431 | The delete handler, as `ListView.DeleteConfirm`, returning the request it issued |
| ListScreen.Screen.Failed | src/pages/Home.tabs/BuildingSubCom.tsx:421-430 | The `catch` and `finally` blocks of a failed delete, as `ListView.DeleteFailed` |
| ListScreen.Screen.Succeeded | src/pages/Home.tabs/Structure.tsx:343-367 | The success path in either order: refetch then toast (awaited), or toast in `finally` then the refetch |
| ListScreen.Screen.ConfirmDelete | src/pages/Home.tabs/BuildingSubCom.tsx:544-558 | The handler, then the alert's `onClose` |
| ListScreen.Screen.Announce | src/pages/Home.tabs/BuildingSubCom.tsx:441-454 | A callback's updates before its refetch: the modal closed where it closes, the selection dropped where it drops, the toast raised |
| ListScreen.Screen.CloseModals | src/pages/Home.tabs/BuildingSubCom.tsx:441-454 | Closes the modals and drops the selection as asked, nothing else |
| ListScreen.Screen.Toast | src/pages/Home.tabs/BuildingSubCom.tsx:441-454 | Sets the toast text, shows it, and resets the error flag where the screen does |
| ListScreen.Screen.AfterSave | src/pages/Home.tabs/BuildingSubCom.tsx:441-454 | A modal callback, as `ListView.AfterSave` |
| ListScreen.Screen.Handle | src/pages/Home.tabs/BuildingSubCom.tsx:303-460 | Any event, as `ListView.Step` |
| ListScreen.Screen.Flow | src/pages/Home.tabs/BuildingSubCom.tsx:303-460 | A URL change, toolbar press, delete confirmation or modal callback, as `ListView.Step` |
| ListScreen.Screen.Local | src/pages/Home.tabs/BuildingSubCom.tsx:382-558 | A row click, search input or dialog/toast close, as `ListView.Step` |
| JsText.Lower | src/pages/Home.tabs/BuildingSubCom.tsx:372 | `toLowerCase()` maps each character and keeps the length |
| JsText.IsBlank | src/pages/Home.tabs/BuildingSubCom.tsx:370 | Every character is one `trim` removes; `JsText.BlankIffTrimEmpty` ties this to `!s.trim()` |
| JsText.Trim | src/pages/Home.tabs/BuildingSubCom.tsx:370 | `trim()` never lengthens a text, and what is left starts and ends with a character it keeps |
| JsText.BlankIffTrimEmpty | src/pages/Home.tabs/BuildingSubCom.tsx:370 | A term is blank exactly when trimming it leaves the empty string |
| JsText.Upper | src/pages/Home.tabs/Kind.tsx:176-183 | `toUpperCase()` maps each character and keeps the length |
| JsText.LowerOfUpper | src/pages/Home.tabs/Kind.tsx:176-183 | Lower-casing forgets a prior upper-casing |
| JsText.LowerIdempotent | src/pages/Home.tabs/BuildingSubCom.tsx:372-379 | Lower-casing twice is lower-casing once |
| JsText.UpperKeepsBlank | src/pages/Home.tabs/Kind.tsx:176-183 | Upper-casing keeps a text blank or non-blank |
| JsText.LowerKeepsBlank | src/pages/Home.tabs/BuildingSubCom.tsx:370-372 | Lower-casing keeps a text blank or non-blank, so the blank check may use either |
| JsText.ContainsPrefixOf | src/pages/Home.tsx:57-74 | A text containing t+u contains t |
| JsText.ContainsSelf | src/pages/Home.tabs/BuildingSubCom.tsx:373-379 | Every text `includes` itself |
| JsText.ContainsNoLonger | src/pages/Home.tabs/BuildingSubCom.tsx:373-379 | A contained text is no longer than its container |
| JsText.Contains | src/pages/Home.tabs/BuildingSubCom.tsx:373-379 | `includes`: pinned by `JsText.ContainsIffOccurs` |
| JsText.ContainsIffOccurs | src/pages/Home.tabs/BuildingSubCom.tsx:373-379 | A text includes a needle exactly when the needle occurs in it at some offset |
| JsText.FirstCharAbsent | src/pages/Home.tabs/SubclassRate.tsx:298-302 | A needle whose first character does not occur in the text is not found |
| JsText.ParseNatToString | src/pages/People.tabs/User.tsx:355-358 | The decimal text of a natural number reads back as it and has no sign |
| JsText.IntToString | src/pages/People.tabs/User.tsx:357 | `String(n)`: pinned by `JsText.IntToStringRoundTrip`, `JsText.IntToStringInjective` and `JsText.IntToStringNonEmpty` |
| JsText.IntToStringRoundTrip | src/pages/People.tabs/User.tsx:355-358 | `String(n)` of an integer reads back as n |
| JsText.ParseSigned | src/pages/People.tabs/User.tsx:355-358 | A leading minus sign negates what the digits read as |
| JsText.IntToStringInjective | src/pages/People.tabs/User.tsx:355-358 | Different integers print differently |
| JsText.DigitsAreLower | src/pages/People.tabs/DeviceManagement.tsx:296-305 | A printed integer is unchanged by lower-casing |
| JsText.PrintedChar | src/pages/People.tabs/DeviceManagement.tsx:296-305 | Each character of a printed integer is unchanged by lower-casing |
| JsText.NatDigits | src/pages/People.tabs/User.tsx:355-358 | A printed natural number is made of digits |
| JsText.IntToStringNonEmpty | src/pages/People.tabs/User.tsx:355-358 | A printed integer is never the empty text, so it is truthy |
| Search.SubsequenceOfSelf | src/pages/Home.tabs/BuildingSubCom.tsx:369-371 | A list is a subsequence of itself, as the blank-term branch returns it |
| Search.Keep | src/pages/Home.tabs/BuildingSubCom.tsx:369-380 | The kept rows are rows of the list that match |
| Search.Filter | src/pages/Home.tabs/BuildingSubCom.tsx:369-380 | The `filteredData` memo: a blank term gives the list itself; otherwise every shown row is a row of the list one of whose fields contains the lower-cased term (both directions, order and multiplicity in `Search.FilterSpec`) |
| Search.KeepIsSubsequence | src/pages/Home.tabs/BuildingSubCom.tsx:369-380 | `Array.filter` keeps the order: the result is a subsequence of the list |
| Search.KeepMembership | src/pages/Home.tabs/BuildingSubCom.tsx:369-380 | A row is kept iff it is in the list and one of its columns contains the needle |
| Search.KeepCount | src/pages/Home.tabs/BuildingSubCom.tsx:369-380 | A matching row is kept as often as it occurs; a non-matching row never |
| Search.KeepAppend | src/pages/Home.tabs/BuildingSubCom.tsx:369-380 | Filtering distributes over concatenation |
| Search.KeepIdempotent | src/pages/Home.tabs/BuildingSubCom.tsx:369-380 | Filtering twice is filtering once |
| Search.FilterSpec | src/pages/Home.tabs/BuildingSubCom.tsx:369-380 | A blank term gives the list unchanged; otherwise exactly the matching rows are shown, in order and with their multiplicity |
| Search.FilterIgnoresTermCase | src/pages/Home.tabs/BuildingSubCom.tsx:372 | The term is lower-cased, so its case does not matter |
| Search.FilterIdempotent | src/pages/Home.tabs/BuildingSubCom.tsx:369-380 | Filtering the shown rows again shows the same rows |
| Search.FilterAppend | src/pages/Home.tabs/BuildingSubCom.tsx:369-380 | Filtering two lists joined is joining their filtered lists |
| Routing.Get | src/pages/Home.tabs/BuildingSubCom.tsx:304-305 | `URLSearchParams.get`: null iff the name is absent, else the value of its first occurrence |
| Routing.Go | src/pages/Home.tabs/BuildingCom.tsx:311-328 | Electron navigation sets the hash and carries no router state; the browser passes the state |
| Routing.Slot.Write | src/pages/Home.tabs/BuildingCom.tsx:315-317 | `sessionStorage.setItem` of the JSON record |
| Routing.Slot.Consume | src/pages/Home.tabs/BuildingSubCom.tsx:316-331 | Reads the slot; removes it only if it parsed; a malformed entry stays |
| Routing.Parse | src/pages/Home.tabs/BuildingSubCom.tsx:318-330 | `JSON.parse` inside `try`: the record for a JSON entry, nothing for a missing or malformed one |
| BuildingCom.PathChangeKeepsRows | src/pages/Home.tabs/BuildingCom.tsx:248-253 | A pathname change clears selection and search and keeps the rows |
| BuildingCom.SearchMatches | src/pages/Home.tabs/BuildingCom.tsx:282-290 | A row is shown iff its id or description contains the lower-cased term (or the term is blank) |
| BuildingCom.Fields | src/pages/Home.tabs/BuildingCom.tsx:282-290 | The searched columns: id and description, lower-cased; pinned by `BuildingCom.SearchMatches` |
| BuildingCom.Toolbar | src/pages/Home.tabs/BuildingCom.tsx:381-386 | Add always enabled; edit, delete and manage need a selection |
| BuildingCom.DeleteKeyed | src/pages/Home.tabs/BuildingCom.tsx:339-364 | The delete is keyed by building_com_id. Success clears the selection. Failure shows the error's own message or the fallback |
| BuildingCom.ManageTarget | src/pages/Home.tabs/BuildingCom.tsx:311-328 | Manage goes to '/menu/home/buildingsubcom' with the selected row's building_com_id, and the row as router state in the browser |
| BuildingCom.ManageSubcomponents | src/pages/Home.tabs/BuildingCom.tsx:311-328 | In Electron mode the selected row is also written to the 'buildingComData' slot |
| BuildingSubCom.ParentData | src/pages/Home.tabs/BuildingSubCom.tsx:312-334 | Router state wins over the slot's record |
| BuildingSubCom.Screen.constructor | src/pages/Home.tabs/BuildingSubCom.tsx:284-300 | Initial state, no parent data |
| BuildingSubCom.Screen.OnLocation | src/pages/Home.tabs/BuildingSubCom.tsx:303-366 | The key comes from `building_com_id`. The slot is read only in Electron mode and emptied only after a successful parse. The parent data is router state, else the slot's record, else null |
| BuildingSubCom.ResetClears | src/pages/Home.tabs/BuildingSubCom.tsx:303-310 | Every URL change sets the key and clears selection, search and rows |
| BuildingSubCom.NoFetchWithoutKey | src/pages/Home.tabs/BuildingSubCom.tsx:339-366 | Without a key the fetch is a no-op |
| BuildingSubCom.MalformedSlotIgnored | src/pages/Home.tabs/BuildingSubCom.tsx:318-331 | A malformed slot entry is not used and the parent data falls back to router state |
| BuildingSubCom.SearchMatches | src/pages/Home.tabs/BuildingSubCom.tsx:369-380 | A row is shown iff one of its ids, its description, its rate text or its "percent"/"fixed" word contains the lower-cased term (or the term is blank) |
| BuildingSubCom.Fields | src/pages/Home.tabs/BuildingSubCom.tsx:369-380 | The searched columns: both ids and description lower-cased, the rate text, and the percent flag as "percent" or "fixed"; pinned by `BuildingSubCom.SearchMatches` |
| BuildingSubCom.PercentSearch | src/pages/Home.tabs/BuildingSubCom.tsx:369-380 | Every term whose lower-cased form is part of "percent" or "fixed" finds a row with that flag |
| BuildingSubCom.BooleanWordsNotSearched | src/pages/Home.tabs/BuildingSubCom.tsx:377 | ... and never "true" or "false" |
| BuildingSubCom.NoOpeningPair | src/pages/Home.tabs/BuildingSubCom.tsx:377 | A needle whose first two characters never stand side by side in the text is not found |
| BuildingSubCom.DeleteKeyed | src/pages/Home.tabs/BuildingSubCom.tsx:402-431 | The delete needs and uses both the sub-component id and the parent key; it closes the dialog; success clears the selection |
| BuildingSubCom.Toolbar | src/pages/Home.tabs/BuildingSubCom.tsx:456-460 | Add iff a parent key; edit and delete iff a selection |
| BuildingSubCom.ErrorFlagSticky | src/pages/Home.tabs/BuildingSubCom.tsx:293-454 | Once set, the error flag stays set whatever happens next |
| BuildingSubCom.HandOff | src/pages/Home.tabs/BuildingSubCom.tsx:303-335 | In Electron mode BuildingCom's manage action hands its row over: the sub-component list is keyed by it, takes it as parent data, and empties the slot |
| Structure.PathChangeKeepsRows | src/pages/Home.tabs/Structure.tsx:248-251 | A pathname change clears selection and search and keeps the rows |
| Structure.SearchMatches | src/pages/Home.tabs/Structure.tsx:279-288 | Code, description or effective date contains the lower-cased term |
| Structure.Fields | src/pages/Home.tabs/Structure.tsx:279-288 | The searched columns: code, description and effective date, lower-cased; pinned by `Structure.SearchMatches` |
| Structure.DeleteKeyed | src/pages/Home.tabs/Structure.tsx:343-367 | Keyed by structure_code; closes and toasts on both outcomes; success clears the selection |
| Structure.RefetchFailureWins | src/pages/Home.tabs/Structure.tsx:343-367 | The refetch after the `finally` toast runs last, so its failure message replaces the success message |
| Structure.Toolbar | src/pages/Home.tabs/Structure.tsx:384-390 | Add always; edit, delete and construct need a selection |
| Structure.ConstructTarget | src/pages/Home.tabs/Structure.tsx:309-323 | Construct goes to the building codes of the selected structure |
| Structure.ConstructClick | src/pages/Home.tabs/Structure.tsx:309-323 | In Electron mode the selected row is written to the 'structureData' slot |
| Structure.CubeOutlineTarget | src/pages/Home.tabs/Structure.tsx:325-332 | The cube button goes to the building components with no query |
| BuildingCode.Screen.constructor | src/pages/Home.tabs/BuildingCode.tsx:258-273 | Initial state, no structure data |
| BuildingCode.Screen.OnLocation | src/pages/Home.tabs/BuildingCode.tsx:276-322 | The key comes from `structure_code`; the structure data is the router state and nothing else |
| BuildingCode.ResetClears | src/pages/Home.tabs/BuildingCode.tsx:276-292 | A URL change sets the key and clears selection, search and rows |
| BuildingCode.NoFetchWithoutKey | src/pages/Home.tabs/BuildingCode.tsx:295-299 | No fetch without a key |
| BuildingCode.SearchMatches | src/pages/Home.tabs/BuildingCode.tsx:325-334 | Code, description or rate text contains the lower-cased term |
| BuildingCode.Fields | src/pages/Home.tabs/BuildingCode.tsx:325-334 | The searched columns: code, description and rate text, lower-cased; pinned by `BuildingCode.SearchMatches` |
| BuildingCode.DeleteKeyed | src/pages/Home.tabs/BuildingCode.tsx:363-388 | Keyed by building_code and the parent structure_code |
| BuildingCode.Callbacks | src/pages/Home.tabs/BuildingCode.tsx:390-403 | Create closes its modal and keeps the selection; update closes its modal and clears it; both toast and refetch |
| BuildingCode.Toolbar | src/pages/Home.tabs/BuildingCode.tsx:405-409 | Add iff a key; edit and delete iff a selection |
| BuildingCode.SlotNeverRead | src/pages/Home.tabs/BuildingCode.tsx:276-292 | In Electron mode the structure hand-off keys the list, but the 'structureData' slot is never read: the data stays null and the entry stays |
| Classification.IsUsed | src/pages/Home.tabs/Classification.tsx:352-366 | Used iff the subclass count is positive (null counts as 0), and when the check threw |
| Classification.DeleteClicked | src/pages/Home.tabs/Classification.tsx:390-410 | With a selection: used opens the "cannot delete" alert, unused opens the confirmation |
| Classification.Screen.constructor | src/pages/Home.tabs/Classification.tsx:289-301 | Initial state, no alert |
| Classification.Screen.DeleteClick | src/pages/Home.tabs/Classification.tsx:390-410 | The delete button runs the usage check, as `DeleteClicked` |
| Classification.Screen.CannotDeleteOk | src/pages/Home.tabs/Classification.tsx:585-593 | The alert's OK closes it |
| Classification.UsedOpensNoConfirm | src/pages/Home.tabs/Classification.tsx:390-410 | A used classification never reaches the confirmation, so no delete can be confirmed |
| Classification.ExactlyOneAlert | src/pages/Home.tabs/Classification.tsx:390-410 | Exactly one of the two alerts opens, and loading ends |
| Classification.SearchMatches | src/pages/Home.tabs/Classification.tsx:369-377 | Id or name contains the lower-cased term |
| Classification.Fields | src/pages/Home.tabs/Classification.tsx:369-377 | The searched columns: id and name, lower-cased; pinned by `Classification.SearchMatches` |
| Classification.DeleteKeyed | src/pages/Home.tabs/Classification.tsx:412-437 | Keyed by class_id; the success toast names the classification |
| Classification.CallbacksOnlyRefetch | src/pages/Home.tabs/Classification.tsx:558-565 | The modal callbacks are the fetch itself |
| Classification.SubclassTarget | src/pages/Home.tabs/Classification.tsx:439-456 | Goes to the subclasses of the selected class, with the row minus created_at as state |
| Classification.ActualUsedTarget | src/pages/Home.tabs/Classification.tsx:458-475 | Same, for the actual-used screen |
| Classification.Toolbar | src/pages/Home.tabs/Classification.tsx:485-491 | Add always; update, subclass, actual-used and the delete check need a selection |
| Subclass.KeyText | src/pages/Home.tabs/Subclass.tsx:358 | `${classId}` prints the text, or "null" |
| Subclass.RateTarget | src/pages/Home.tabs/Subclass.tsx:355-363 | Rates of the selected subclass, carrying subclass_id and the current class_id text |
| Subclass.NewKeyKeepsRows | src/pages/Home.tabs/Subclass.tsx:248-255 | A URL change keeps the rows; a falsy key fetches nothing |
| Subclass.SearchMatches | src/pages/Home.tabs/Subclass.tsx:289-297 | Id or name contains the lower-cased term |
| Subclass.Fields | src/pages/Home.tabs/Subclass.tsx:289-297 | The searched columns: id and name, lower-cased; pinned by `Subclass.SearchMatches` |
| Subclass.DeleteKeyed | src/pages/Home.tabs/Subclass.tsx:315-340 | Keyed by subclass_id alone |
| Subclass.Callbacks | src/pages/Home.tabs/Subclass.tsx:342-353 | Create leaves its modal open; update closes its modal and keeps the selection |
| Subclass.Toolbar | src/pages/Home.tabs/Subclass.tsx:373-378 | Add iff a class key; edit, delete and rate iff a selection |
| Subclass.FromClassification | src/pages/Home.tabs/Subclass.tsx:248-286 | Classification's navigation keys the subclass list by the class id; a non-empty id shows the fetched rows, an empty one fetches nothing and shows no rows |
| SubclassRate.BackTarget | src/pages/Home.tabs/SubclassRate.tsx:367-384 | Back goes to the subclasses, keeping class_id only when it is non-empty |
| SubclassRate.SearchMatches | src/pages/Home.tabs/SubclassRate.tsx:290-305 | Id (lower-cased), rate or year text (as is) contains the lower-cased term |
| SubclassRate.Fields | src/pages/Home.tabs/SubclassRate.tsx:290-305 | The searched columns: id lower-cased; rate and year as they are; pinned by `SubclassRate.SearchMatches` |
| SubclassRate.RawColumnsCaseSensitive | src/pages/Home.tabs/SubclassRate.tsx:298-302 | Every term starting with an upper-case letter misses a row none of whose columns holds that letter in lower case |
| JsText.SingleCharAbsent | src/pages/Home.tabs/SubclassRate.tsx:298-302 | A one-character needle absent from the text is not found |
| SubclassRate.DeleteKeyed | src/pages/Home.tabs/SubclassRate.tsx:323-348 | Keyed by subclassrate_id alone |
| SubclassRate.Toolbar | src/pages/Home.tabs/SubclassRate.tsx:386-390 | Add iff a key; edit and delete iff a selection |
| SubclassRate.ResetClears | src/pages/Home.tabs/SubclassRate.tsx:248-256 | A URL change sets the key and clears selection, search and rows |
| SubclassRate.RoundTrip | src/pages/Home.tabs/SubclassRate.tsx:367-384 | Going to the rates and back restores the class id |
| SubclassRate.StaleRowBackToNullText | src/pages/Home.tabs/SubclassRate.tsx:367-384 | A row kept across a URL without class_id sends "null" as the class, which the way back stores as a truthy key |
| AssessmentLevel.Title | src/pages/Home.tabs/AssesmentLevel.tsx:391 | The title names the kind when kind_id is set |
| AssessmentLevel.ResetClears | src/pages/Home.tabs/AssesmentLevel.tsx:253-261 | A URL change sets kind_id and clears selection, search and rows |
| AssessmentLevel.NoFetchWithoutKey | src/pages/Home.tabs/AssesmentLevel.tsx:265-292 | No fetch without kind_id |
| AssessmentLevel.SearchMatches | src/pages/Home.tabs/AssesmentLevel.tsx:295-317 | One of the six columns (missing ones as '') contains the lower-cased term |
| AssessmentLevel.Fields | src/pages/Home.tabs/AssesmentLevel.tsx:295-317 | The searched columns: id, class id, effective year, both range bounds and rate, lower-cased, a missing one as the empty text; pinned by `AssessmentLevel.SearchMatches` |
| AssessmentLevel.KindNotSearched | src/pages/Home.tabs/AssesmentLevel.tsx:295-317 | kind_id never affects the search |
| AssessmentLevel.DeleteKeyed | src/pages/Home.tabs/AssesmentLevel.tsx:338-364 | Keyed by assessment_level_id alone; success refetches, clears the selection and resets the error flag; both outcomes close and end loading |
| AssessmentLevel.RefetchFailureHidden | src/pages/Home.tabs/AssesmentLevel.tsx:338-354 | A refetch failure after the delete is hidden: the error flag and toast are overwritten |
| AssessmentLevel.Toolbar | src/pages/Home.tabs/AssesmentLevel.tsx:375-379 | Add iff kind_id; edit and delete iff a selection |
| Taxrate.Content | src/pages/Home.tabs/Taxrate.tsx:415-427 | A table iff there are shown rows; otherwise "Loading..." or the empty-district notice |
| Taxrate.MissingDistrict | src/pages/Home.tabs/Taxrate.tsx:259-266 | A direct fetch without district_id raises "District ID is missing" |
| Taxrate.EffectsNeedDistrict | src/pages/Home.tabs/Taxrate.tsx:248-292 | The effects without district_id only reset |
| Taxrate.EmptyDistrictNotice | src/pages/Home.tabs/Taxrate.tsx:415-427 | An empty answer shows the notice |
| Taxrate.SearchMatches | src/pages/Home.tabs/Taxrate.tsx:295-310 | Id, year or rate contains the lower-cased term |
| Taxrate.Fields | src/pages/Home.tabs/Taxrate.tsx:295-310 | The searched columns: id, effective year and rate, lower-cased, a missing one as the empty text; pinned by `Taxrate.SearchMatches` |
| Taxrate.DeleteKeyed | src/pages/Home.tabs/Taxrate.tsx:326-352 | Keyed by tax_rate_id alone; success resets the error flag |
| Taxrate.Toolbar | src/pages/Home.tabs/Taxrate.tsx:362-366 | Add iff a district; edit and delete iff a selection |
| Declarant.SearchMatches | src/pages/People.tabs/Declarant.tsx:277-285 | Declarant or form id contains the lower-cased term |
| Declarant.Fields | src/pages/People.tabs/Declarant.tsx:277-285 | The searched columns: declarant and form id, lower-cased; pinned by `Declarant.SearchMatches` |
| Declarant.StatusNotSearched | src/pages/People.tabs/Declarant.tsx:277-285 | Status and class never affect the search |
| Declarant.Toolbar | src/pages/People.tabs/Declarant.tsx:291-350 | No add; update and delete need a selection |
| Declarant.DeleteKeyed | src/pages/People.tabs/Declarant.tsx:302-327 | Keyed by form_id; the toast quotes the declarant; failure keeps the rows |
| Declarant.FetchFailure | src/pages/People.tabs/Declarant.tsx:251-270 | A failed fetch sets exactly the error toast and ends loading |
| Declarant.NoUrlEffect | src/pages/People.tabs/Declarant.tsx:272-274 | The screen does not react to the URL |
| Barangay.DistrictKey | src/pages/Home.tabs/Barangay.tsx:248-260 | district_id is stored as `Number(text)`, or null when absent or empty |
| Barangay.ZeroOrNaNIsAbsent | src/pages/Home.tabs/Barangay.tsx:248-290 | A district of 0 or NaN clears the list, fetches nothing and disables add |
| Barangay.FetchesNonZero | src/pages/Home.tabs/Barangay.tsx:286-290 | A changed key fetches iff it is truthy |
| Barangay.SearchMatches | src/pages/Home.tabs/Barangay.tsx:293-301 | Id or name contains the lower-cased term |
| Barangay.Fields | src/pages/Home.tabs/Barangay.tsx:293-301 | The searched columns: id and name, lower-cased; pinned by `Barangay.SearchMatches` |
| Barangay.DeleteKeyed | src/pages/Home.tabs/Barangay.tsx:323-347 | Keyed by barangay_id; the toast names the barangay |
| Barangay.Callbacks | src/pages/Home.tabs/Barangay.tsx:349-362 | Both close their modal; only update clears the selection |
| Barangay.Toolbar | src/pages/Home.tabs/Barangay.tsx:372-376 | Add iff a district; edit and delete iff a selection |
| LandAdjustment.PathChangeKeepsRows | src/pages/Home.tabs/LandAdjustment.tsx:248-251 | A pathname change clears selection and search and keeps the rows |
| LandAdjustment.SearchMatches | src/pages/Home.tabs/LandAdjustment.tsx:280-290 | One of the four columns contains the lower-cased term |
| LandAdjustment.Fields | src/pages/Home.tabs/LandAdjustment.tsx:280-290 | The searched columns: id, description, factor and type, lower-cased; pinned by `LandAdjustment.SearchMatches` |
| LandAdjustment.DeleteKeyed | src/pages/Home.tabs/LandAdjustment.tsx:324-350 | Keyed by adjustment_id; success resets the error flag |
| LandAdjustment.Callbacks | src/pages/Home.tabs/LandAdjustment.tsx:353-369 | The callbacks reset the error flag, so it ends set iff their refetch failed |
| LandAdjustment.Toolbar | src/pages/Home.tabs/LandAdjustment.tsx:379-383 | Add always; edit and delete iff a selection |
| Kind.IsBuilding | src/pages/Home.tabs/Kind.tsx:175-176 | Holds only with a selection whose description has the 8 letters of BUILDING |
| Kind.IsMachinery | src/pages/Home.tabs/Kind.tsx:178-179 | Holds only with a selection whose description has the 9 letters of MACHINERY |
| Kind.IsLand | src/pages/Home.tabs/Kind.tsx:181-182 | Holds only with a selection whose description has the 4 letters of LAND |
| Kind.Available | src/pages/Home.tabs/Kind.tsx:299-304 | Every drill-down needs a selection; the assessment levels need nothing more |
| Kind.DrillTarget | src/pages/Home.tabs/Kind.tsx:225-289 | Each drill-down is offered iff its kind is selected, and carries kind_id as printed |
| Kind.DrillPath | src/pages/Home.tabs/Kind.tsx:228-279 | The path of each drill-down: pinned by `Kind.DrillTarget` |
| Kind.AtMostOneKindAction | src/pages/Home.tabs/Kind.tsx:176-183 | At most one of building, machinery and land holds, none without a selection |
| Kind.KindIgnoresCase | src/pages/Home.tabs/Kind.tsx:176-183 | The kind check ignores the description's case |
| Kind.UpperOfUpper | src/pages/Home.tabs/Kind.tsx:176-183 | Upper-casing twice is upper-casing once |
| Kind.UpperOfLower | src/pages/Home.tabs/Kind.tsx:176-183 | Upper-casing forgets a prior lower-casing |
| Kind.SearchMatches | src/pages/Home.tabs/Kind.tsx:211-219 | The printed id or the description contains the lower-cased term |
| Kind.Fields | src/pages/Home.tabs/Kind.tsx:211-219 | The searched columns: the printed kind_id and the lower-cased description; pinned by `Kind.SearchMatches` |
| Kind.NoEditing | src/pages/Home.tabs/Kind.tsx:206-304 | No add, no edit, no delete, no URL effect: the three presses change nothing |
| Kind.ToAssessmentLevels | src/pages/Home.tabs/Kind.tsx:225-232 | The assessment-level list is keyed by the kind's printed id, which reads back as the id, and shows the fetched rows |
| DeviceManagement.RowClick | src/pages/People.tabs/DeviceManagement.tsx:307-310 | A row click selects the device and opens the alert, and nothing else changes |
| DeviceManagement.Settle | src/pages/People.tabs/DeviceManagement.tsx:338-356 | After a write the alert is closed, loading ends and a toast shows; a failure keeps the list with the failure toast; a success clears the error flag, and the refetch's rows or failure toast land last |
| DeviceManagement.Yes | src/pages/People.tabs/DeviceManagement.tsx:312-358 | Yes writes iff a device is selected: a registered one is deleted, a pending one registered at `now`; the alert closes |
| DeviceManagement.No | src/pages/People.tabs/DeviceManagement.tsx:360-398 | No writes iff the selected device is pending, and then deletes it; otherwise it only closes the alert |
| DeviceManagement.Normalize | src/pages/People.tabs/DeviceManagement.tsx:273-277 | Both ids go through `String`; the other columns are kept |
| DeviceManagement.NormalizeAll | src/pages/People.tabs/DeviceManagement.tsx:273-277 | Every row is normalised, in order |
| DeviceManagement.FetchFilter | src/pages/People.tabs/DeviceManagement.tsx:254-266 | A non-empty `user_id` parameter filters the query by that user, else no filter |
| DeviceManagement.Fetch | src/pages/People.tabs/DeviceManagement.tsx:251-288 | Rows replace the list; failure keeps it with an error toast; loading ends |
| DeviceManagement.Manage | src/pages/People.tabs/DeviceManagement.tsx:408-415 | Manage opens the alert iff a device is selected |
| DeviceManagement.AlertHeader | src/pages/People.tabs/DeviceManagement.tsx:477 | "Unregister Device" iff the selected device is registered |
| DeviceManagement.SettleFlags | src/pages/People.tabs/DeviceManagement.tsx:325-397 | After a write the alert is closed and the spinner off; failure shows its toast and keeps the list; success shows its toast, clears the error flag and shows the refetched list |
| DeviceManagement.YesActs | src/pages/People.tabs/DeviceManagement.tsx:312-358 | Yes deletes a registered device and registers an unregistered one, with their toasts |
| DeviceManagement.NoActs | src/pages/People.tabs/DeviceManagement.tsx:360-487 | No only closes for a registered device, and deletes an unregistered one |
| DeviceManagement.NothingWithoutSelection | src/pages/People.tabs/DeviceManagement.tsx:312-371 | Without a selection both buttons only close |
| DeviceManagement.ManageIsRowClick | src/pages/People.tabs/DeviceManagement.tsx:307-310 | A row click opens the alert just as manage does |
| DeviceManagement.SearchMatches | src/pages/People.tabs/DeviceManagement.tsx:296-305 | Name, device id or user id contains the lower-cased term |
| DeviceManagement.Fields | src/pages/People.tabs/DeviceManagement.tsx:296-305 | The searched columns: device name, device id and user id, lower-cased; pinned by `DeviceManagement.SearchMatches` |
| DeviceManagement.Displayed | src/pages/People.tabs/DeviceManagement.tsx:296-305 | The shown devices: pinned by `DeviceManagement.SearchMatches` |
| DeviceManagement.NumericIdSearchable | src/pages/People.tabs/DeviceManagement.tsx:275-305 | A numeric device id is found by its printed digits |
| DeviceScreen.Screen.constructor | src/pages/People.tabs/DeviceManagement.tsx:228-238 | Initial state |
| DeviceScreen.Screen.Fetch | src/pages/People.tabs/DeviceManagement.tsx:251-288 | The loop over the rows stores exactly `NormalizeAll`, as `DeviceManagement.Fetch` |
| DeviceScreen.Screen.RowClick | src/pages/People.tabs/DeviceManagement.tsx:307-310 | As `DeviceManagement.RowClick` |
| DeviceScreen.Screen.Manage | src/pages/People.tabs/DeviceManagement.tsx:408-415 | As `DeviceManagement.Manage` |
| DeviceScreen.Screen.SetSearch | src/pages/People.tabs/DeviceManagement.tsx:296-305 | Stores the term, `''` for null |
| DeviceScreen.Screen.Settle | src/pages/People.tabs/DeviceManagement.tsx:325-356 | The common tail of the handlers, as `DeviceManagement.Settle` |
| DeviceScreen.Screen.Yes | src/pages/People.tabs/DeviceManagement.tsx:312-358 | As `DeviceManagement.Yes` |
| DeviceScreen.Screen.No | src/pages/People.tabs/DeviceManagement.tsx:360-398 | As `DeviceManagement.No` |
| User.OnLocation | src/pages/People.tabs/User.tsx:372-381 | The location effect fetches and, with a `refresh` parameter, toasts the refresh; a failing fetch's toast lands last; selection and modals are untouched |
| User.BanClick | src/pages/People.tabs/User.tsx:505-527 | Nothing without a selection; a refused ban raises its error toast and leaves the modal; otherwise only the ban modal opens |
| User.DeleteClick | src/pages/People.tabs/User.tsx:593-613 | The same guards for delete, on the delete modal |
| User.BanConfirm | src/pages/People.tabs/User.tsx:529-582 | A status write is issued iff a user is selected, an admin is signed in and the typed password matches the stored hash; it toggles `suspended`; the modal never opens here, is reset only on success, and every other path raises an error toast |
| User.DeleteConfirm | src/pages/People.tabs/User.tsx:615-663 | A deletion is issued under the same conditions, for the selected user's id; the modal is reset only on success, and every other path raises an error toast |
| User.Normalize | src/pages/People.tabs/User.tsx:355-358 | user_id goes through `String`; the rest is kept |
| User.NormalizeAll | src/pages/People.tabs/User.tsx:355-358 | Every row is normalised, in order |
| User.Fetch | src/pages/People.tabs/User.tsx:344-369 | Rows replace the list; failure keeps it with "Failed to load users"; loading ends; modals untouched |
| User.CheckPassword | src/pages/People.tabs/User.tsx:437-460 | Unknown and false without a session or password; true iff the admin record exists and the hash matches; the stored verdict equals the returned value |
| User.Typed | src/pages/People.tabs/User.tsx:487-503 | Typing stores the password and the check's verdict (unknown for an empty one) |
| User.Dismiss | src/pages/People.tabs/User.tsx:792-886 | Any close hides the modal; the Electron cancel button keeps password and verdict, every other close resets them |
| User.BanRefusal | src/pages/People.tabs/User.tsx:505-527 | A ban is refused iff the user is the admin or an administrator |
| User.DeleteRefusal | src/pages/People.tabs/User.tsx:593-613 | A delete is refused iff the user is the admin or an administrator |
| User.UpdateClick | src/pages/People.tabs/User.tsx:584-591 | A placeholder toast naming the user, only with a selection |
| User.BanButtonConfig | src/pages/People.tabs/User.tsx:692-702 | Disabled iff nothing is selected; "Unban User" iff the selected user is suspended |
| User.AddUserTarget | src/pages/People.tabs/User.tsx:665-671 | Add goes to the registration page |
| User.CheckDeviceTarget | src/pages/People.tabs/User.tsx:673-681 | Check Device goes to the device screen with the selected user's id |
| User.SearchSpec | src/pages/People.tabs/User.tsx:384-396 | A blank term shows all users in order; otherwise exactly those whose username, email, names, role or id contains the lower-cased term |
| User.Fields | src/pages/People.tabs/User.tsx:384-396 | The searched columns: username, email, first and last name, role and id, lower-cased; pinned by `User.SearchSpec` |
| User.Displayed | src/pages/People.tabs/User.tsx:384-396 | The shown users: pinned by `User.SearchSpec` |
| User.SpacesTakePart | src/pages/People.tabs/User.tsx:385-387 | The term is not trimmed: every term with a leading space misses a user none of whose columns holds a space |
| User.GuardsRefuse | src/pages/People.tabs/User.tsx:505-613 | Ban or delete on oneself or an administrator raises an error toast and opens no modal |
| User.GuardsAdmit | src/pages/People.tabs/User.tsx:505-613 | Otherwise the modal opens and nothing else changes |
| User.BanToggles | src/pages/People.tabs/User.tsx:552-582 | A confirmed ban writes the toggled `suspended`; success closes the modal; loading ends |
| User.WrongPasswordWritesNothing | src/pages/People.tabs/User.tsx:544-636 | A wrong password raises "Invalid admin password", writes nothing and leaves the modal as it was |
| User.NoSessionNoRequest | src/pages/People.tabs/User.tsx:530-616 | Without an admin session the confirm handlers do nothing |
| User.DeletedUserStaysSelected | src/pages/People.tabs/User.tsx:638-657 | Delete removes the selected user's account but leaves it selected |
| User.EmptyPasswordUnknown | src/pages/People.tabs/User.tsx:437-441 | An empty password or no session gives the unknown verdict and false |
| User.ConfirmNeedsMatch | src/pages/People.tabs/User.tsx:900-901 | The confirm button is enabled iff the typed password matched |
| User.CancelKeepsVerdict | src/pages/People.tabs/User.tsx:792-886 | After the Electron cancel button a re-opened modal is still confirmable; after any other close it is not |
| User.FetchEnds | src/pages/People.tabs/User.tsx:344-369 | Fetch ends loading; a failure keeps the list |
| User.StoredIdsReadBack | src/pages/People.tabs/User.tsx:355-358 | A stored numeric user_id reads back as the number sent |
| UserScreen.Screen.constructor | src/pages/People.tabs/User.tsx:304-322 | Initial state |
| UserScreen.Screen.SessionLoaded | src/pages/People.tabs/User.tsx:334-341 | The admin is recorded only when the session has a user |
| UserScreen.Screen.Fetch | src/pages/People.tabs/User.tsx:344-369 | The loop over the rows stores exactly `NormalizeAll`, as `User.Fetch` |
| UserScreen.Screen.OnLocation | src/pages/People.tabs/User.tsx:372-381 | The fetch and, with `refresh` in the query, a toast; the fetch lands last |
| UserScreen.Screen.RowClick | src/pages/People.tabs/User.tsx:398-400 | Selects the row |
| UserScreen.Screen.SetSearch | src/pages/People.tabs/User.tsx:384-396 | Stores the term, `''` for null |
| UserScreen.Screen.TypePassword | src/pages/People.tabs/User.tsx:487-503 | As `User.Typed` on the ban or delete modal |
| UserScreen.Screen.ToggleVisible | src/pages/People.tabs/User.tsx:847-971 | The eye button flips the password's visibility |
| UserScreen.Screen.Dismiss | src/pages/People.tabs/User.tsx:792-1010 | As `User.Dismiss` on either modal |
| UserScreen.Screen.BanClick | src/pages/People.tabs/User.tsx:505-527 | As `User.BanClick` |
| UserScreen.Screen.DeleteClick | src/pages/People.tabs/User.tsx:593-613 | As `User.DeleteClick` |
| UserScreen.Screen.BanConfirm | src/pages/People.tabs/User.tsx:529-582 | As `User.BanConfirm`, returning the write it issued |
| UserScreen.Screen.DeleteConfirm | src/pages/People.tabs/User.tsx:615-663 | As `User.DeleteConfirm`, returning the deletion it issued |
| UserScreen.Screen.UpdateClick | src/pages/People.tabs/User.tsx:584-591 | As `User.UpdateClick` |
| UserScreen.Screen.ToastClosed | src/pages/People.tabs/User.tsx:1046 | Closing the toast hides it |
| UserScreen.CheckDevice | src/pages/People.tabs/User.tsx:673-681 | The device screen reached by Check Device asks for exactly the selected user's devices |
| Tabs.FirstMatch | src/pages/Home.tsx:57-74 | The first name in check order whose "/name" occurs in the path, else the default |
| Tabs.FirstMatchAt | src/pages/Home.tsx:57-74 | A name wins when its check succeeds and every earlier one fails |
| Tabs.ThirdWins | src/pages/Home.tsx:59-61 | When the first two checks fail and the third succeeds, the third name wins |
| Tabs.Shadowed | src/pages/Home.tsx:61-65 | A name always checked after a prefix of itself never wins |
| Tabs.Apply | src/pages/Home.tsx:57-80 | A pathname resolves; a bar click sets its tab |
| Tabs.Run | src/pages/Home.tsx:57-131 | After any run of events the active tab is the start, a bar tab, or what some visited path resolved to |
| Tabs.RunAvoids | src/pages/Home.tsx:57-131 | A tab that is not the start, not on the bar and not resolved from any visited path is never active |
| Tabs.Host.constructor | src/pages/Home.tsx:54 | The host starts on its default tab |
| Tabs.Host.Located | src/pages/Home.tsx:57-74 | The pathname effect sets the resolved tab |
| Tabs.Host.TabChange | src/pages/Home.tsx:76-80 | `handleTabChange(t)` sets exactly t and pushes its hash |
| Tabs.Host.Handle | src/pages/Home.tsx:57-131 | Any event, as `Tabs.Apply` |
| HomeTabs.Render | src/pages/Home.tsx:82-101 | Classification exactly for 'classification' and every unknown tab; each of the other fourteen pages exactly for its own tab name |
| HomeTabs.RenderOneToOne | src/pages/Home.tsx:82-101 | Two different known tab names render two different screens |
| HomeTabs.Total | src/pages/Home.tsx:57-74 | Resolution is total: a checked name or 'classification' |
| HomeTabs.Resolve | src/pages/Home.tsx:57-74 | The pathname chain: pinned by `HomeTabs.Total`, `HomeTabs.FirstTests` and `HomeTabs.NeverResolvesToSubclassRate` |
| HomeTabs.SubclassRateResolvesToSubclass | src/pages/Home.tsx:61-65 | A '/subclassrate' path resolves to 'subclass' unless an earlier check matches |
| HomeTabs.FirstTests | src/pages/Home.tsx:59-61 | The first three checks look for "/district", "/kind" and "/subclass" |
| HomeTabs.NeverResolvesToSubclassRate | src/pages/Home.tsx:61-65 | No path resolves to 'subclassrate' |
| HomeTabs.SubclassRateNeverShown | src/pages/Home.tsx:57-131 | Neither the bar nor a pathname makes 'subclassrate' active, so the host never renders SubclassRate |
| HomeTabs.IntendedReachesSubclassRate | src/pages/Home.tsx:57-74 | With '/subclassrate' checked before '/subclass', a rate path without '/district' or '/kind' resolves to 'subclassrate' and renders SubclassRate |
| HomeTabs.ClickBar | src/pages/Home.tsx:103-131 | A bar click activates classification, district or kind and pushes its hash |
| PeopleTabs.Render | src/pages/People.tsx:60-68 | Declarant for every unknown tab; user, devices and register their own screens |
| PeopleTabs.ResolveOrder | src/pages/People.tsx:46-52 | '/user', then '/devices', then '/register', else 'declarant' |
| PeopleTabs.Resolve | src/pages/People.tsx:46-52 | The pathname chain: pinned by `PeopleTabs.ResolveOrder` |
| PeopleTabs.RegisterOnlyByPath | src/pages/People.tsx:46-74 | 'register' becomes active only through a path that resolves to it |
| PeopleTabs.ClickBar | src/pages/People.tsx:54-100 | A bar click activates its tab, never register |

## Left out

- JSX layout, styling, icons, the loading overlay and the error boundary: they hold no state the handlers use.
- Electron detection: `useElectron` is a boolean parameter of the handlers that navigate.
- The Supabase query builder: the model holds the constraints of each delete and device fetch, not the ordering clauses; backend answers are parameters.
- The create/update modal components (their forms and `parseFloat`s): they are not part of this model; their effect on the screen is the callback with the refetch's answer.
- bcrypt and the admin lookup: the lookup is a parameter, no admin record or a matcher for the stored hash; an exception from `bcrypt.compare` is not modelled.
- The session query: its result is the parameter of `UserScreen.Screen.SessionLoaded`.
- Concurrency: the password check is typed in and answered atomically; an answer that arrives after a later keystroke is not modelled.
- Timers: the search focus after 100 ms and the toast's auto-dismiss after 3000 ms.
- JSON and sessionStorage internals: a stored entry is either the record or malformed text; a JSON `null` entry is not distinguished.
- Case mapping covers ASCII letters only; `trim()` uses the ECMAScript white-space set.
- URL encoding of query values is not modelled; a query is its list of name/value pairs.
- Numeric columns other than ids are carried as the text `toString()` prints; primary keys are taken as present.
- `Object.is` on ±0 for the Barangay key: 0 and -0 are one number here.
- The back buttons: each goes to a constant path, except SubclassRate's, which is modelled.
- Classification.Rules: its delete is never reached through `ListView.Press(Delete)`; the toolbar button is `Classification.Screen.DeleteClick`.
- Kind.Rules: the screen has no add, edit or delete button, so its policy has no add button, no edit button and no delete.
- Subclass.RateTarget: requires a non-numeric class key, as the source's `string | null` state type does.
- User.Refuse and User.ActionWord: message helpers, covered by `User.GuardsRefuse` and `User.BanClick`.
- The Register page, District, ActualUsed and Equipment screens: reachable from the hosts, but not part of this model.

## Findings

| source | as written | input that shows it | evidently intended | confidence | as-written member | corrected member |
|---|---|---|---|---|---|---|
| src/pages/Home.tsx:57-74 | the pathname chain checks '/subclass' before '/subclassrate', and the bar (Home.tsx:103-107) has no rate tab | the hash '/menu/home/subclassrate?subclass_id=...' that the subclass screen's rate button sets (Subclass.tsx:355-363) resolves to 'subclass' | '/subclassrate' checked before '/subclass', so the rate screen is shown | high; not executed | HomeTabs.NeverResolvesToSubclassRate | HomeTabs.IntendedReachesSubclassRate |

The Home host itself keeps the order as written (`HomeTabs.Order`); the intended
order is `HomeTabs.IntendedOrder`, used only by the corrected member.
