# Save Page WE — the background controller and the font-face interceptor

Save Page WE is a browser extension that saves a complete web page as one
HTML file. This project models two parts of it:

- The background script's controller. This covers:
  - the per-tab save state machine (`tabSaveStates`) and the page types;
  - the save queue that `initiateAction` builds and `nextAction` drains;
  - the pre-checks, policy check and branch of `performAction`;
  - `finishAction` and `cancelAction`;
  - the `htmlStrings` buffer, from which the saved file's text is assembled;
  - the resource loader that fetches page resources for the content script,
    together with the check on who sent the request;
  - the toolbar badge and the "cancel save" menu item.
- The page-context wrapper of `window.FontFace`, which writes an equivalent
  `@font-face` rule into `<head>` each time the page constructs a font face.

Module layout:

| module | contents |
|---|---|
| `Wrappers` | `Option` |
| `Browser` | tab and window identifiers and the tab record |
| `JsBuiltins` | the JavaScript built-ins the core relies on: `substr(0, n)`, `toLowerCase`, `\s`, number-to-text, `Number` comparison |
| `Seqs` | order-preserving filtering |
| `ResourceFetch` | `loadResource` and the sender check of its message |
| `PageGate` | `specialPage` and the Content-Security-Policy decision |
| `SaveQueue` | the selections of `initiateAction` and the branch `nextAction` takes |
| `SaveState` | the state numbering, the dispatch of `performAction`, its alerts, the badge and the cancel enablement |
| `Fragments` | the `htmlStrings` buffer as values |
| `Controller` | class `SaveController`: the background script's mutable globals and the handlers that change them |
| `FontFace` | the rule text, and class `PageWindow` for `window.FontFace` and `<head>` |

Browser calls are not executed by the model. Each handler returns the calls
and messages it issues, in order, as a sequence of `Effect` values. The
browser's answer then arrives as a call of another handler. For example:

- `tabs.get` answers `performAction` through its `tab` argument.
- A finished download arrives as `DownloadDone`.
- The page-load timer firing arrives as `PageLoadTimedOut`.

## Model

| member | source | states |
|---|---|---|
| `ResourceFetch.ReasonRoundTrip` | background.js:1283-1344 | Every failure reason text the loader sends (`load:<status>*`, `maxsize*`, `blocked*`, `fetcherr*`, `maxtime*`, and `ignored*` of the sender check) reads back as exactly that failure, so distinct failures and distinct HTTP statuses are never confused |
| `ResourceFetch.SuccessReasonIsNotAFailure` | background.js:1323 | The success reason `*` is not read as any failure |
| `ResourceFetch.MimeTypeDecomposition` | background.js:1285-1299 | The mimetype is the first maximal run of characters other than `;` in the Content-Type, lower-cased |
| `ResourceFetch.MimeTypeEmpty` | background.js:1285-1299 | The mimetype is empty exactly when the Content-Type is absent or holds nothing but semicolons |
| `ResourceFetch.CharsetDecomposition` | background.js:1301-1303 | The charset is the value after the first `;charset=` (any letter case, followed by a character other than `;`), up to the next `;` or the end, lower-cased |
| `ResourceFetch.CharsetEmpty` | background.js:1301-1303 | The charset is empty exactly when no such `;charset=` occurs |
| `ResourceFetch.CharsetSpaceAfterSemicolon` | background.js:1301 | The common form `text/css; charset=utf-8`, with a space after the `;`, reports no charset |
| `ResourceFetch.AllowedMimeTypes` | background.js:1305-1306 | Allowed are exactly `text/css` and the `image/`, `audio/` and `video/` families; the icon type is one of the images |
| `ResourceFetch.SizeLimitBoundary` | background.js:1288-1294 | A declared length exactly at `maxResourceSize` MiB passes and one byte more fails; an absent or non-numeric Content-Length never fails |
| `ResourceFetch.BinaryStringRoundTrip` | background.js:1316-1323 | The binary string has one char per byte, with that byte as its char code, so the bytes are recovered from it |
| `ResourceFetch.BinaryString` | background.js:1316-1323 | The loop builds exactly the binary string of the body bytes |
| `ResourceFetch.ResourceOutcome` | background.js:1261-1345 | The reply carries the request's index |
| `ResourceFetch.LoadResource` | background.js:1261-1345 | The loader, step by step, gives the reply of the reference function `ResourceOutcome` |
| `ResourceFetch.OutcomeReasons` | background.js:1283-1344 | Every reply is a success with reason `*` or a failure whose reason is one of the loader's own (never `ignored*`) |
| `ResourceFetch.TransportFailures` | background.js:1277-1344 | An aborted fetch (the time limit) fails with `maxtime*`, any other rejection with `fetcherr*`, and a non-200 status with `load:<status>*` |
| `ResourceFetch.SizeLimitRule` | background.js:1288-1294 | For a 200 response the size check comes first: `maxsize*` exactly when the declared length exceeds the limit, whatever the type or body |
| `ResourceFetch.BlockedRule` | background.js:1305-1313 | Within the limit, a 200 response is `blocked*` exactly when its mimetype is off the allow-list, whatever its body |
| `ResourceFetch.SuccessPayload` | background.js:1283-1324 | Success exactly for a 200 response within the limit, of an allowed type, whose body was read; the content holds the bytes, and the mimetype and charset are the parsed ones |
| `ResourceFetch.LoadResourceReplies` | background.js:1077-1101 | At most one reply per request, carrying the request's index |
| `ResourceFetch.OneReplyPerRequest` | background.js:1077-1101 | Exactly one reply unless the check itself throws. The reply is `ignored*` exactly when the sender is not the extension's own top frame on the tab's URL and, outside Firefox, on the tab's origin |
| `PageGate.SpecialPagePrefixes` | background.js:1724-1729 | A URL is special exactly when it starts with one of the eight browser-internal or store prefixes |
| `PageGate.Search` | background.js:1705-1706 | A regular-expression search gives the first match position at or after the start, or -1 when there is none |
| `PageGate.CspDecisionAsWritten` | background.js:1692-1717 | The download is allowed exactly for a `file:///` URL, or for a 200 `HEAD` response whose lower-cased policy has no `sandbox` name followed by whitespace or has some `allow-downloads` token; a failed request or any other status denies it |
| `PageGate.CspDecision` | background.js:1705-1708 | The corrected decision: as the one above, except that a `sandbox` directive counts whether whitespace, `;` or the end of the policy follows it |
| `PageGate.BareSandboxCounterexample` | background.js:1705-1708 | As written, a policy that is just `sandbox` (the directive at the end of the header) is judged to allow downloads; the corrected decision denies them |
| `PageGate.SandboxWithoutAllowDownloadsDenies` | background.js:1698-1710 | With the corrected directive match, a 200 response whose policy has a `sandbox` directive and no `allow-downloads` denies the download, wherever the directive sits |
| `PageGate.CorrectionOnlyStricter` | background.js:1703-1708 | The corrected decision allows only what the decision as written allows. The two agree on every policy in which each `sandbox` directive is followed by whitespace |
| `Seqs.Filter` | background.js:1369-1380 | Filtering keeps only elements that pass the test and never adds elements |
| `Seqs.FilterPositions` | background.js:1369-1404 | The kept elements are exactly the passing elements, at strictly increasing positions of the input, in input order |
| `SaveQueue.Retain` | background.js:1401-1404 | The push loop keeps exactly the filtered elements in order |
| `SaveQueue.CollectTabIds` | background.js:1369-1438 | The loop collects the ids of exactly the tabs that pass the test, in window order |
| `SaveQueue.SelectedTabsInWindowOrder` | background.js:1369-1380 | The selected ids are the ids of the qualifying tabs at increasing window positions, and every qualifying tab is included |
| `SaveQueue.SpecialPagesNotSelected` | background.js:1373 | No tab with a special URL other than `about:blank` is queued |
| `SaveQueue.ListedUrlsFiltered` | background.js:1401-1404 | The listed-URL queue is exactly the non-special configured URLs, in their configured order |
| `SaveQueue.LastActiveTabIdNone` | background.js:1367 | The id of the tab to activate again is undefined exactly when no tab of the window is active |
| `SaveQueue.LastActiveTabIdPosition` | background.js:1367 | Otherwise it is the id of an active tab after which no tab is active |
| `SaveQueue.ActiveTabId` | background.js:1367 | The loop finds exactly that last active tab |
| `SaveQueue.NextStepTakesHead` | background.js:1443-1571 | Without cancel, the action dequeues the head of its queue. At the end of an empty queue it ends automation when automation is on and otherwise does nothing. The other queue is left unchanged |
| `SaveQueue.CancelStopsQueue` | background.js:1447-1514 | Once cancelled, the two save actions take nothing and leave their queues as they are |
| `SaveQueue.LaterActionsIgnoreCancel` | background.js:1562-1569 | Page info, remove-loader and extract-media take the single queued tab whatever the cancel flag, and never end automation |
| `SaveQueue.RunSavesSelectedInOrder` | background.js:1443-1500 | Draining a selected-tab save without cancel takes exactly the queued tabs, one per step and in order, then ends automation when it is on |
| `SaveQueue.RunOpensListedInOrder` | background.js:1505-1554 | Draining a listed-URL save without cancel opens exactly the queued URLs, one per step and in order, then ends automation when it is on |
| `Fragments.Put` | background.js:1137-1143 | A fragment is stored at its index. Index 0 first empties the buffer. Earlier slots are kept, and slots skipped over become holes |
| `Fragments.InOrderTransfers` | background.js:1137-1155 | Whatever the buffer held, sending a page's fragments at indices 0, 1, … makes the saved text their concatenation |
| `Fragments.ResetDiscards` | background.js:1139 | Index 0 discards every earlier fragment |
| `Fragments.PutCommutes` | background.js:1137-1143 | Two fragments at different non-zero indices give the same buffer in either order of arrival |
| `SaveState.DispatchOn` | background.js:1616-1648 | The branch by state: load scripts when there is no entry or the last committed state; start the operation when the script is loaded or the tab was saved, removed or extracted; refuse while states -1 to 5 run; otherwise nothing. All four as if-and-only-if |
| `SaveState.DispatchOnDefinedStates` | background.js:1616-1648 | Among the defined states (numbered at background.js:444-459) only a loading script falls through every branch, and a state change happens exactly from the committed, loaded, saved, removed and extracted states |
| `SaveState.PreCheckAlert` | background.js:1583-1600 | An alert exactly when the page is special, not yet complete, or not a saved page for actions 2 to 4; each alert ends with the tab title |
| `SaveState.NothingToSaveAlert` | background.js:1384-1409 | The nothing-to-save alert announces the end of automation exactly when automation is on |
| `SaveState.BadgeIndex` | background.js:1771 | No badge for a tab without state or before an operation runs; otherwise the state itself is the index |
| `SaveState.BadgeText` | background.js:1771-1773 | A badge text exists exactly when the index lies within the text table `saveStateTexts` (background.js:505) |
| `SaveState.BadgeForDefinedStates` | background.js:1771-1773 | Every defined state has a badge text in `saveStateTexts` (background.js:505). It is empty exactly when no operation is past its start, and it reads `Sav` in the three save passes |
| `SaveState.CancelEnabled` | background.js:1797-1811 | "Cancel save" is enabled exactly in the lazy-load and the three save passes |
| `SaveState.CancelOnlyWhileInProgress` | background.js:1643-1647 | Whenever cancel is enabled (background.js:1811), a new action on that tab is refused as in progress, and the badge (background.js:1771) shows the running pass |
| `Controller.StepEffects` | background.js:1443-1571 | Each branch of `nextAction` issues at most one call, and issues none only when it takes no step |
| `Controller.SaveController.constructor` | background.js:491-510 | Empty tables and queues, no current tab or save window, and no cancel. Automation is on when the option asks for it (background.js:735) |
| `Controller.SaveController.OnCommitted` | background.js:949-961 | A top-frame commit makes the tab a normal page at the committed state; other frames change nothing |
| `Controller.SaveController.ScriptLoaded` | background.js:1023-1043 | The state ends at "operation started" and the stored request is sent to the script. Without a stored request nothing is sent, but the state still changes |
| `Controller.SaveController.SetPageType` | background.js:1045-1053 | The reported page type is stored for the tab and nothing else changes |
| `Controller.SaveController.SetSaveState` | background.js:1055-1063 | The reported state is stored for the tab and nothing else changes |
| `Controller.SaveController.SaveExit` | background.js:1103-1113 | The tab goes back to "script loaded" and the queue moves on as `finishAction` says |
| `Controller.SaveController.SaveDone` | background.js:1125-1135 | The tab becomes "saved" and the queue moves on as `finishAction` says |
| `Controller.SaveController.TransferString` | background.js:1137-1143 | The buffer becomes `Put` of the old buffer |
| `Controller.SaveController.SavePage` | background.js:1145-1155 | The download holds the assembled buffer, and the buffer is left empty |
| `Controller.SaveController.DownloadDone` | background.js:1192-1205 | The tab becomes "saved" and `finishAction` runs with the download's success |
| `Controller.SaveController.FinishAction` | background.js:1654-1673 | Reports to Print Edit when asked and supported, closes the tab for a listed-URL save or when so configured, then takes the next queue step. Without stored parameters it issues nothing and the queue stays as it is |
| `Controller.SaveController.NextAction` | background.js:1443-1571 | The queue, the current tab and the calls are exactly those of the reference step `NextStep`/`AfterStep` |
| `Controller.SaveController.PerformAction` | background.js:1573-1652 | Tab gone: nothing changes. Failed pre-check: the alert, then the next step, with no table touched. Otherwise the parameters and the as-written policy verdict (`CspAllowsDownloadAsWritten`) are stored, even when the action is refused; then the dispatch's new state and calls, and for a refusal the alert and the next step |
| `Controller.SaveController.InitiateAction` | background.js:1351-1441 | The queue is the action's selection. Selected tabs are brought forward before the active tab is restored. When the selection is empty the alert replaces the step, otherwise cancel is cleared and the first step is taken. Inactive highlighted tabs are un-highlighted last |
| `Controller.SaveController.BuildQueue` | background.js:1363-1425 | The queue becomes the action's selection. For a selected-tab save, the calls bring each selected tab forward in queue order and then the last active tab back |
| `Controller.SaveController.StartQueue` | background.js:1384-1432 | With something queued (or for actions 2 to 4), clears cancel and takes the first step with the right `multiplesaves`; otherwise alerts and changes nothing |
| `Controller.SaveController.CancelAction` | background.js:1675-1682 | Sets cancel, ends automation and sends `cancelSave` to the current tab |
| `Controller.SaveController.ListedUrlTabCreated` | background.js:1516-1519 | The tab created for a listed URL becomes the current tab |
| `Controller.SaveController.PageLoadTimedOut` | background.js:1480-1543 | When a page does not load in time, a listed-URL tab is closed and the queue moves on |
| `Controller.SaveController.AutomationTimerFired` | background.js:1492-1503 | After the automation delay the window is closed unless a cancel came in meanwhile; the listed-URL branch has the same timer (background.js:1548-1559) |
| `FontFace.RuleStructure` | content-fontface.js:70-81 | The rule is the fixed head, then the emitted descriptors as `name: value; `, then ` }` |
| `FontFace.RuleBegins` | content-fontface.js:70-72 | Every rule begins with the selector, the family and the source |
| `FontFace.DescriptorClausesSeparated` | content-fontface.js:74-79 | The descriptor clauses are empty or end in `; ` |
| `FontFace.RuleEnds` | content-fontface.js:70-81 | Every rule ends with `;  }` |
| `FontFace.NoDescriptorsWithoutOptions` | content-fontface.js:74 | Without a truthy third argument the rule has no descriptor |
| `FontFace.EmittedDescriptors` | content-fontface.js:74-79 | The rule states exactly the truthy properties among weight, style and stretch, with their values, in that order, and nothing else |
| `FontFace.PageWindow.constructor` | content-fontface.js:55-59 | A page starts with its own `FontFace` and no wrapper |
| `FontFace.PageWindow.InterceptFontFace` | content-fontface.js:55-63 | Only a window that has `FontFace` gets a wrapper |
| `FontFace.PageWindow.ConstructFontFace` | content-fontface.js:63-93 | Each wrapper appends one style with the rule to `<head>` and calls the constructor it replaced. Without `<head>` nothing is appended and the browser's constructor is not reached |
| `FontFace.PageWindow.CallWrapper` | content-fontface.js:87-92 | The wrapper at a given depth appends one style per level below it |
| `JsBuiltins.DecimalRoundTrip` | background.js:1329 | The decimal text of a status reads back as that status |
| `JsBuiltins.DecimalStringInjective` | background.js:1329 | Distinct statuses give distinct texts |

## Left out

- All `chrome.*` and DOM calls are not executed. Each becomes an `Effect` value, or an argument carrying the browser's answer (`tab` for `tabs.get`, `head` for the policy `HEAD` request, `fetched` for the resource fetch).
- Timers and the fetch's abort controller: firing a timer is a handler call, and a fetch aborted by `maxResourceTime` is the input `Aborted`. Delays and durations are not modelled.
- Interleaving of asynchronous callbacks: each handler runs to completion on the state it is given. `performAction` reads the page type before the policy check's `await` and writes the tables after it; the model treats both as one step.
- The tab-update listeners of `nextAction` (background.js:1466-1478, 1521-1533) wait for the tab to finish loading. They are folded into the `LoadTab` and `OpenListedUrl` effects, after which `performAction` is called.
- `webNavigation.onCompleted` (background.js:963-1004): the later repair of a missing state, which is a fallback outside the queue.
- The message relays and delays (background.js:1065-1075) and `waitBeforeRevoke`.
- The external-messaging handler (background.js:1213-1254). The model keeps the `externalSaveDone` report that `finishAction` sends.
- `initialize` and option changes: the options are constants of the controller, and the Firefox version test is the constant `externalMessaging`.
- The toolbar title, the badge colours and the other context-menu items: only the badge text and the cancel enablement are modelled.
- The download callbacks beyond the new state and the buffer: the `interrupted` alert and the object-URL revocation.
- `JsBuiltins.ToLowerCase`: only ASCII letters are mapped. This is exact for the case-insensitive regular expressions, which fold ASCII only without the `u` flag. On the policy and Content-Type text it differs from `toLowerCase` only on non-ASCII letters. None of them lower-cases into a word that is matched, so the decisions agree; a reported mimetype or charset keeps its non-ASCII letters as they were.
- Strings are sequences of UTF-16 code units as `char`s. The binary string of the loader holds code units below 256.
- `Controller.SaveController.TransferString`: `htmlindex` is a natural number. A negative or fractional index, which the content script never sends, would become a property of the JavaScript array rather than a slot.
- `FontFace`: the arguments' conversion by `+` is given as text and truthiness (`JsValue`). The browser's own constructor and its errors are not modelled.
- The injection of the wrapper into the page (content-fontface.js:47-51), which is DOM work.
- The content scripts that scan, encode and download the page are not part of this model.
- `ResourceFetch.FetchOutcome`: its `contentLength` is the Number that unary `+` makes of the Content-Length header, supplied as an input. That conversion (which also accepts, for example, `0x10` or surrounding spaces) is not modelled.
- `ResourceFetch.CharsetOf` follows the code: `;charset=` must directly follow the `;`, so the usual `; charset=` gives no charset (lemma `CharsetSpaceAfterSemicolon`). This is stated as a property and not as a finding, because the content script falls back on the page's own charset.
- `Controller.SaveController.PerformAction` stores and sends the policy verdict as the code computes it (`CspAllowsDownloadAsWritten`). The corrected `CspAllowsDownload` of the finding below is stated and proved beside it, and the controller does not run it.
- Where the design notes and the code differ, the model follows the code. "Cancel save" is enabled for states 0 to 3 (background.js:1811). An action is refused as in progress for states -1 to 5 (background.js:1643).

## Findings

| source | as written | input that shows it | evidently intended | confidence | as-written member | corrected member |
|---|---|---|---|---|---|---|
| background.js:1705 | The `sandbox` directive is found only when whitespace follows it (`(^\|;\|\s)sandbox\s`), so a directive at the end of the header or directly before `;` is missed | An `https://example.com/` page answering `HEAD` with status 200 and `Content-Security-Policy: sandbox` | A sandboxed page without `allow-downloads` is treated as forbidding the download, wherever the directive sits | medium, not executed | `PageGate.BareSandboxCounterexample` (on `PageGate.CspAllowsDownloadAsWritten`) | `PageGate.SandboxWithoutAllowDownloadsDenies` (on `PageGate.CspAllowsDownload`, related to the as-written decision by `PageGate.CorrectionOnlyStricter`) |
