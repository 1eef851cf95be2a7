/**
 * The per-tab save state of the background script (`tabSaveStates`), the
 * decisions `performAction` takes on it, and what the toolbar badge and the
 * "cancel save" menu item show for it.
 */
module SaveState {

  import opened Wrappers
  import opened Browser
  import opened PageGate

  // The numbering of `tabSaveStates`; a tab without an entry has no committed URL.
  const UrlCommitted: int := -4
  const ScriptLoading: int := -3
  const ScriptLoaded: int := -2
  const OperationStarted: int := -1
  const LazyLoads: int := 0
  const FirstPass: int := 1
  const SecondPass: int := 2
  const ThirdPass: int := 3
  const RemoveResourceLoader: int := 4
  const ExtractMedia: int := 5
  const Saved: int := 6
  const Removed: int := 7
  const Extracted: int := 8

  // ---------------------------------------------------------------------------
  // What an action carries

  /**
   * The arguments of `initiateAction`: the action (0 save selected tabs,
   * 1 save listed URLs, 2 page info, 3 remove resource loader, 4 extract
   * media) and its options; `null` arguments are None.
   */
  datatype Command = Command(
    menuaction: int,
    saveditems: Option<int>,
    togglelazy: Option<bool>,
    extractsrcurl: Option<string>,
    externalsave: bool,
    swapdevices: bool)

  /** A command together with `multiplesaves`, as `nextAction` and `performAction` pass it on. */
  datatype Request = Request(command: Command, multiplesaves: bool)

  /** The entry of `tabSaveParams`: the request and whether the page's policy forbids the download. */
  datatype SaveParams = SaveParams(request: Request, csprestriction: bool)

  // ---------------------------------------------------------------------------
  // The dispatch of `performAction`

  /** The branch `performAction` takes once the pre-checks pass. */
  datatype Dispatch =
    | LoadScripts        // inject the content scripts; the state becomes ScriptLoading
    | StartOperation     // send `performAction` to the loaded script; the state becomes OperationStarted
    | AlreadyInProgress  // alert and go on with the queue
    | NoBranch           // no branch matches: nothing happens

  function DispatchOn(state: Option<int>): (d: Dispatch)
    ensures d == LoadScripts <==> state.None? || state.value <= UrlCommitted
    ensures d == StartOperation <==> state.Some? && (state.value == ScriptLoaded || Saved <= state.value <= Extracted)
    ensures d == AlreadyInProgress <==> state.Some? && OperationStarted <= state.value <= ExtractMedia
    ensures d == NoBranch <==> state.Some? && (state.value == ScriptLoading || state.value > Extracted)
  {
    if state.None? || state.value <= -4 then LoadScripts
    else if state.value == -2 || (state.value >= 6 && state.value <= 8) then StartOperation
    else if state.value >= -1 && state.value <= 5 then AlreadyInProgress
    else NoBranch
  }

  /** The state a tab has after the dispatch, or None when its entry stays as it was. */
  function DispatchTarget(d: Dispatch): Option<int> {
    match d
    case LoadScripts => Some(ScriptLoading)
    case StartOperation => Some(OperationStarted)
    case _ => None
  }

  /**
   * A tab whose state is one of the defined values is never left in a
   * branch that does nothing unless its script is still loading, and a new
   * operation only ever starts from a state in which no operation runs.
   */
  lemma DispatchOnDefinedStates(state: int)
    requires UrlCommitted <= state <= Extracted
    ensures DispatchOn(Some(state)) == NoBranch <==> state == ScriptLoading
    ensures DispatchTarget(DispatchOn(Some(state))).Some? <==> state in {UrlCommitted, ScriptLoaded, Saved, Removed, Extracted}
  {
  }

  // ---------------------------------------------------------------------------
  // The pre-checks of `performAction`

  /** The alert `performAction` raises before touching any state, or None when the action may go ahead. */
  function PreCheckAlert(menuaction: int, tab: TabInfo, pageType: Option<int>): (alert: Option<string>)
    ensures alert.None? <==> !SpecialPage(tab.url) && tab.complete && !(menuaction >= 2 && (pageType.None? || pageType.value == 0))
    ensures alert.Some? ==> |alert.value| >= |tab.title| && alert.value[|alert.value| - |tab.title|..] == tab.title
  {
    if SpecialPage(tab.url) then Some("Cannot be used with this page:\n > " + tab.title)
    else if !tab.complete then Some("Page is not ready:\n > " + tab.title)
    else if menuaction >= 2 && (pageType.None? || pageType.value == 0) then Some("Page is not a saved page:\n > " + tab.title)
    else None
  }

  /** The alert for a tab whose operation is still running. */
  function InProgressAlert(tab: TabInfo): (alert: string)
    ensures |alert| >= |tab.title| && alert[|alert| - |tab.title|..] == tab.title
  {
    "Operation already in progress:\n > " + tab.title
  }

  /** The alert `initiateAction` raises when its filter kept nothing. */
  function NothingToSaveAlert(menuaction: int, applyAutomation: bool): (alert: string)
    requires menuaction == 0 || menuaction == 1
    ensures applyAutomation <==> |alert| >= 18 && alert[|alert| - 18..] == " Automation ended."
  {
    var base := if menuaction == 0 then "No savable pages in selected tabs." else "No savable pages in Listed URLs.";
    var alert := base + (if applyAutomation then " Automation ended." else "");
    assert " Automation ended."[16] == 'd';
    assert !applyAutomation ==> alert[|alert| - 18..][16] == base[|base| - 2] == 's';
    assert applyAutomation ==> alert[|alert| - 18..] == " Automation ended.";
    alert
  }

  // ---------------------------------------------------------------------------
  // The toolbar badge and the cancel menu item

  const SaveStateTexts: seq<string> := ["Laz", "Sav", "Sav", "Sav", "Rm", "Ext", "Sav", "Rm", "Ext", ""]

  /** The index into the badge texts and colours: 9 (no badge) for a tab without state or before an operation runs, else the state. */
  function BadgeIndex(state: Option<int>): (i: int)
    ensures i >= 0
    ensures i == 9 <==> state.None? || state.value <= OperationStarted || state.value == 9
    ensures state.Some? && state.value >= LazyLoads ==> i == state.value
  {
    if state.None? || state.value <= -1 then 9 else state.value
  }

  /** The badge text, or None when the index is past the table (a state no message of the model sets). */
  function BadgeText(state: Option<int>): (t: Option<string>)
    ensures t.Some? <==> BadgeIndex(state) < |SaveStateTexts|
  {
    var i := BadgeIndex(state);
    if i < |SaveStateTexts| then Some(SaveStateTexts[i]) else None
  }

  /** Every defined state has a badge; it is empty exactly when no operation is past its start. */
  lemma BadgeForDefinedStates(state: Option<int>)
    requires state.None? || UrlCommitted <= state.value <= Extracted
    ensures BadgeText(state).Some?
    ensures BadgeText(state) == Some("") <==> state.None? || state.value <= OperationStarted
    ensures state.Some? && FirstPass <= state.value <= ThirdPass ==> BadgeText(state) == Some("Sav")
  {
  }

  /** "Cancel save" is enabled while the lazy-load or one of the three save passes runs (no entry counts as 9). */
  function CancelEnabled(state: Option<int>): (b: bool)
    ensures b <==> state.Some? && LazyLoads <= state.value <= ThirdPass
  {
    var savestate := if state.None? then 9 else state.value;
    savestate >= 0 && savestate <= 3
  }

  /** Whenever cancel is enabled the tab is mid-operation: a new action on it is refused, and the badge shows the running pass. */
  lemma CancelOnlyWhileInProgress(state: Option<int>)
    requires CancelEnabled(state)
    ensures DispatchOn(state) == AlreadyInProgress
    ensures BadgeText(state) == Some(if state.value == LazyLoads then "Laz" else "Sav")
  {
  }
}
