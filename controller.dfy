/**
 * The background script's mutable globals and the handlers that change them:
 * the per-tab tables `tabSaveStates`, `tabPageTypes` and `tabSaveParams`,
 * the save queue, the cancel and automation flags, and the `htmlStrings`
 * buffer. Each handler returns, in order, the browser calls and messages it
 * issues; the browser's answers come back as calls of other handlers.
 */
module Controller {

  import opened Wrappers
  import opened Browser
  import opened PageGate
  import opened SaveQueue
  import opened SaveState
  import opened Fragments
  import opened Seqs

  /** A browser call or message the background script issues. */
  datatype Effect =
    | Notify(message: string)                         // alertNotify
    | RefreshUi(tab: TabId, url: string)              // updateBrowserAction and updateContextMenus
    | ActivateTab(target: Option<TabId>)              // tabs.update(id, {active: true}); None is an undefined id
    | UnhighlightTab(tab: TabId)                      // tabs.update(id, {highlighted: false})
    | LoadTab(tab: TabId, active: bool, request: Request)
        // tabs.update(id, {active}), then performAction once the tab shows a loaded page
    | PerformOnTab(tab: TabId, request: Request)      // performAction on the tab straight away
    | OpenListedUrl(window: Option<WindowId>, url: string, active: bool, request: Request)
        // tabs.create, then performAction once the new tab has loaded
    | ScheduleAutomationClose                         // the 2-second timer before closing the automation window
    | CloseWindow(win: WindowId)
    | InsertCss(tab: TabId, file: string)
    | ExecuteScript(tab: TabId, file: string, allFrames: bool)
    | SendPerformAction(tab: TabId, params: SaveParams)
    | SendCancelSave(target: Option<TabId>)
    | RemoveTab(target: Option<TabId>)
    | ExternalSaveDone(tab: TabId, success: bool)
    | Download(text: string, filename: string)

  /** The style sheets `performAction` inserts before injecting the content scripts. */
  const PanelStyles: seq<string> := ["message-panel", "lazyload-panel", "unsaved-panel", "comments-panel", "pageinfo-panel"]

  /** The calls that load the content scripts into a tab: the five panel style sheets, then the page script and the frame script in all frames. */
  function InjectionEffects(tab: TabId): (e: seq<Effect>)
    ensures |e| == |PanelStyles| + 2
    ensures forall i :: 0 <= i < |PanelStyles| ==> e[i] == InsertCss(tab, "/" + PanelStyles[i] + ".css")
    ensures e[|PanelStyles|..] == [ExecuteScript(tab, "content.js", false), ExecuteScript(tab, "content-frame.js", true)]
  {
    seq(|PanelStyles|, i requires 0 <= i < |PanelStyles| => InsertCss(tab, "/" + PanelStyles[i] + ".css")) +
    [ExecuteScript(tab, "content.js", false), ExecuteScript(tab, "content-frame.js", true)]
  }

  /** The calls of the branch `nextAction` takes. */
  function StepEffects(request: Request, step: Step, window: Option<WindowId>, loadLazyContent: bool): (e: seq<Effect>)
    ensures |e| <= 1
    ensures e == [] <==> step.Stay?
  {
    match step
    case Stay => []
    case TakeTab(t) =>
      if request.command.menuaction == 0 then [LoadTab(t, loadLazyContent, request)] else [PerformOnTab(t, request)]
    case TakeUrl(u) => [OpenListedUrl(window, u, loadLazyContent, request)]
    case EndAutomation => [ScheduleAutomationClose]
  }

  /** One `tabs.update(id, {active: true})` per selected tab, in queue order. */
  function ActivateAll(ids: seq<TabId>): (e: seq<Effect>)
    ensures |e| == |ids| && forall i :: 0 <= i < |ids| ==> e[i] == ActivateTab(Some(ids[i]))
  {
    seq(|ids|, i requires 0 <= i < |ids| => ActivateTab(Some(ids[i])))
  }

  /** One `tabs.update(id, {highlighted: false})` per tab. */
  function UnhighlightAll(ids: seq<TabId>): (e: seq<Effect>)
    ensures |e| == |ids| && forall i :: 0 <= i < |ids| ==> e[i] == UnhighlightTab(ids[i])
  {
    seq(|ids|, i requires 0 <= i < |ids| => UnhighlightTab(ids[i]))
  }

  /** The queues `initiateAction` builds before it first calls `nextAction`; the queue an action does not use is left as it was. */
  function BuiltQueues(menuaction: int, q: Queues, tabs: seq<TabInfo>, automation: bool, urlListURLs: seq<string>): Queues {
    if menuaction == 0 then q.(selectedTabIds := TabIds(Filter(tabs, SaveSelection(automation))))
    else if menuaction == 1 then q.(listedURLs := Filter(urlListURLs, IsSavableUrl))
    else q.(selectedTabIds := TabIds(Filter(tabs, IsActive)))
  }

  /** Whether `initiateAction` goes on to `nextAction`: the first two actions need something to save, the others always go on. */
  predicate Starts(menuaction: int, built: Queues) {
    (menuaction == 0 ==> built.selectedTabIds != []) && (menuaction == 1 ==> built.listedURLs != [])
  }

  /** `multiplesaves`: more than one selected tab, or any listed-URL save. */
  predicate MultipleSaves(menuaction: int, built: Queues) {
    if menuaction == 0 then |built.selectedTabIds| > 1 else menuaction == 1
  }

  class SaveController {
    var tabSaveStates: map<TabId, int>
    var tabPageTypes: map<TabId, int>
    var tabSaveParams: map<TabId, SaveParams>
    var selectedTabIds: seq<TabId>
    var listedURLs: seq<string>
    var currentTabId: Option<TabId>
    var saveWindowId: Option<WindowId>
    var cancelSave: bool
    var applyAutomation: bool
    var htmlStrings: seq<Slot>

    // Options read from storage.
    const urlListURLs: seq<string>
    const loadLazyContent: bool
    const closeTabAfter: bool
    /** Whether the browser supports messages to other add-ons (not Firefox before version 54). */
    const externalMessaging: bool

    /** The globals as `initialize` leaves them: empty tables and queues, no cancel, automation when the option asks for it. */
    constructor(urlListURLs: seq<string>, loadLazyContent: bool, closeTabAfter: bool, externalMessaging: bool, useAutomation: bool)
      ensures this.urlListURLs == urlListURLs && this.loadLazyContent == loadLazyContent
      ensures this.closeTabAfter == closeTabAfter && this.externalMessaging == externalMessaging
      ensures tabSaveStates == map[] && tabPageTypes == map[] && tabSaveParams == map[]
      ensures selectedTabIds == [] && listedURLs == [] && currentTabId == None && saveWindowId == None
      ensures !cancelSave && applyAutomation == useAutomation && htmlStrings == []
    {
      this.urlListURLs := urlListURLs;
      this.loadLazyContent := loadLazyContent;
      this.closeTabAfter := closeTabAfter;
      this.externalMessaging := externalMessaging;
      tabSaveStates := map[];
      tabPageTypes := map[];
      tabSaveParams := map[];
      selectedTabIds := [];
      listedURLs := [];
      currentTabId := None;
      saveWindowId := None;
      cancelSave := false;
      applyAutomation := useAutomation;
      htmlStrings := [];
    }

    function StateOf(tab: TabId): Option<int>
      reads this`tabSaveStates
    {
      if tab in tabSaveStates then Some(tabSaveStates[tab]) else None
    }

    function PageTypeOf(tab: TabId): Option<int>
      reads this`tabPageTypes
    {
      if tab in tabPageTypes then Some(tabPageTypes[tab]) else None
    }

    function Queue(): Queues
      reads this`selectedTabIds, this`listedURLs
    {
      Queues(selectedTabIds, listedURLs)
    }

    /** The branch `nextAction` would take now for the request. */
    function Pending(request: Request): Step
      reads this`selectedTabIds, this`listedURLs, this`cancelSave, this`applyAutomation
    {
      NextStep(request.command.menuaction, Queue(), cancelSave, applyAutomation)
    }

    function QueueAfter(request: Request): Queues
      reads this`selectedTabIds, this`listedURLs, this`cancelSave, this`applyAutomation
    {
      AfterStep(request.command.menuaction, Queue(), cancelSave, applyAutomation)
    }

    function CurrentAfter(request: Request): Option<TabId>
      reads this`selectedTabIds, this`listedURLs, this`cancelSave, this`applyAutomation, this`currentTabId
    {
      if Pending(request).TakeTab? then Some(Pending(request).tab) else currentTabId
    }

    function PendingEffects(request: Request): seq<Effect>
      reads this`selectedTabIds, this`listedURLs, this`cancelSave, this`applyAutomation, this`saveWindowId
    {
      StepEffects(request, Pending(request), saveWindowId, loadLazyContent)
    }

    // -------------------------------------------------------------------------
    // Navigation and messages from the content script

    /** `webNavigation.onCommitted`: a new page in the top frame is a normal page whose URL has committed. */
    method OnCommitted(tab: TabId, frameId: int, url: string) returns (effects: seq<Effect>)
      modifies this`tabPageTypes, this`tabSaveStates
      ensures frameId == 0 ==>
        tabPageTypes == old(tabPageTypes)[tab := 0] && tabSaveStates == old(tabSaveStates)[tab := UrlCommitted] &&
        effects == [RefreshUi(tab, url)]
      ensures frameId != 0 ==>
        tabPageTypes == old(tabPageTypes) && tabSaveStates == old(tabSaveStates) && effects == []
    {
      effects := [];
      if frameId == 0 {
        tabPageTypes := tabPageTypes[tab := 0];
        tabSaveStates := tabSaveStates[tab := UrlCommitted];
        effects := [RefreshUi(tab, url)];
      }
    }

    /**
     * `scriptLoaded`: the state passes through ScriptLoaded to
     * OperationStarted and the stored request goes to the script; without a
     * stored request the handler throws before sending anything.
     */
    method ScriptLoaded(tab: TabId, url: string) returns (effects: seq<Effect>)
      modifies this`tabSaveStates
      ensures tabSaveStates == old(tabSaveStates)[tab := OperationStarted]
      ensures effects == [RefreshUi(tab, url)] +
        (if tab in tabSaveParams then [SendPerformAction(tab, tabSaveParams[tab])] else [])
    {
      tabSaveStates := tabSaveStates[tab := SaveState.ScriptLoaded];
      effects := [RefreshUi(tab, url)];
      tabSaveStates := tabSaveStates[tab := OperationStarted];
      if tab in tabSaveParams {
        effects := effects + [SendPerformAction(tab, tabSaveParams[tab])];
      }
    }

    /** `setPageType`: the content script reports whether the page is a saved page. */
    method SetPageType(tab: TabId, url: string, pagetype: int) returns (effects: seq<Effect>)
      modifies this`tabPageTypes
      ensures tabPageTypes == old(tabPageTypes)[tab := pagetype]
      ensures effects == [RefreshUi(tab, url)]
    {
      tabPageTypes := tabPageTypes[tab := pagetype];
      effects := [RefreshUi(tab, url)];
    }

    /** `setSaveState`: the content script reports the pass it is in. */
    method SetSaveState(tab: TabId, url: string, savestate: int) returns (effects: seq<Effect>)
      modifies this`tabSaveStates
      ensures tabSaveStates == old(tabSaveStates)[tab := savestate]
      ensures effects == [RefreshUi(tab, url)]
    {
      tabSaveStates := tabSaveStates[tab := savestate];
      effects := [RefreshUi(tab, url)];
    }

    /** `saveExit`: the operation was abandoned; the script stays loaded and the queue goes on. */
    method SaveExit(tab: TabId, url: string) returns (effects: seq<Effect>)
      modifies this`tabSaveStates, this`selectedTabIds, this`listedURLs, this`currentTabId
      ensures tabSaveStates == old(tabSaveStates)[tab := SaveState.ScriptLoaded]
      ensures effects == [RefreshUi(tab, url)] + old(FinishEffects(tab, false))
      ensures tab in tabSaveParams ==>
        Queue() == old(QueueAfter(tabSaveParams[tab].request)) && currentTabId == old(CurrentAfter(tabSaveParams[tab].request))
      ensures tab !in tabSaveParams ==> Queue() == old(Queue()) && currentTabId == old(currentTabId)
    {
      tabSaveStates := tabSaveStates[tab := SaveState.ScriptLoaded];
      var finish := FinishAction(tab, false);
      effects := [RefreshUi(tab, url)] + finish;
    }

    /** `saveDone`: the page was saved. */
    method SaveDone(tab: TabId, url: string) returns (effects: seq<Effect>)
      modifies this`tabSaveStates, this`selectedTabIds, this`listedURLs, this`currentTabId
      ensures tabSaveStates == old(tabSaveStates)[tab := Saved]
      ensures effects == [RefreshUi(tab, url)] + old(FinishEffects(tab, true))
      ensures tab in tabSaveParams ==>
        Queue() == old(QueueAfter(tabSaveParams[tab].request)) && currentTabId == old(CurrentAfter(tabSaveParams[tab].request))
      ensures tab !in tabSaveParams ==> Queue() == old(Queue()) && currentTabId == old(currentTabId)
    {
      tabSaveStates := tabSaveStates[tab := Saved];
      var finish := FinishAction(tab, true);
      effects := [RefreshUi(tab, url)] + finish;
    }

    /** `transferString`: one fragment of the page text arrives. */
    method TransferString(htmlindex: nat, htmlstring: string)
      modifies this`htmlStrings
      ensures htmlStrings == Put(old(htmlStrings), htmlindex, htmlstring)
    {
      if htmlindex == 0 {
        htmlStrings := [];
      }
      if htmlindex < |htmlStrings| {
        htmlStrings := htmlStrings[htmlindex := Some(htmlstring)];
      } else {
        htmlStrings := htmlStrings + Holes(htmlindex - |htmlStrings|) + [Some(htmlstring)];
      }
    }

    /** `savePage`: the fragments become the downloaded file's text and the buffer is emptied. */
    method SavePage(filename: string) returns (effects: seq<Effect>)
      modifies this`htmlStrings
      ensures effects == [Download(Assemble(old(htmlStrings)), filename)]
      ensures htmlStrings == []
    {
      effects := [Download(Assemble(htmlStrings), filename)];
      htmlStrings := [];
    }

    /** `downloadDone`: the download of the saved page ended, successfully or not. */
    method DownloadDone(tab: TabId, url: string, success: bool) returns (effects: seq<Effect>)
      modifies this`tabSaveStates, this`selectedTabIds, this`listedURLs, this`currentTabId
      ensures tabSaveStates == old(tabSaveStates)[tab := Saved]
      ensures effects == [RefreshUi(tab, url)] + old(FinishEffects(tab, success))
      ensures tab in tabSaveParams ==>
        Queue() == old(QueueAfter(tabSaveParams[tab].request)) && currentTabId == old(CurrentAfter(tabSaveParams[tab].request))
      ensures tab !in tabSaveParams ==> Queue() == old(Queue()) && currentTabId == old(currentTabId)
    {
      tabSaveStates := tabSaveStates[tab := Saved];
      var finish := FinishAction(tab, success);
      effects := [RefreshUi(tab, url)] + finish;
    }

    // -------------------------------------------------------------------------
    // Initiate, next, perform, finish and cancel

    /** What `finishAction` issues; without stored parameters for the tab it throws at once and issues nothing. */
    function FinishEffects(tab: TabId, success: bool): seq<Effect>
      reads this`tabSaveParams, this`selectedTabIds, this`listedURLs, this`cancelSave, this`applyAutomation, this`saveWindowId
    {
      if tab !in tabSaveParams then []
      else
        var p := tabSaveParams[tab];
        (if p.request.command.externalsave && externalMessaging then [ExternalSaveDone(tab, success)] else []) +
        (if p.request.command.menuaction == 1 || closeTabAfter then [RemoveTab(Some(tab))] else []) +
        PendingEffects(p.request)
    }

    /** `finishAction`: report to Print Edit if asked, close a tab opened for a listed URL (or any tab when so configured), and go on with the queue. */
    method FinishAction(tab: TabId, success: bool) returns (effects: seq<Effect>)
      modifies this`selectedTabIds, this`listedURLs, this`currentTabId
      ensures effects == old(FinishEffects(tab, success))
      ensures tab in tabSaveParams ==>
        Queue() == old(QueueAfter(tabSaveParams[tab].request)) && currentTabId == old(CurrentAfter(tabSaveParams[tab].request))
      ensures tab !in tabSaveParams ==> Queue() == old(Queue()) && currentTabId == old(currentTabId)
    {
      if tab !in tabSaveParams {
        return [];
      }
      var p := tabSaveParams[tab];
      effects := [];
      if p.request.command.externalsave && externalMessaging {
        effects := effects + [ExternalSaveDone(tab, success)];
      }
      if p.request.command.menuaction == 1 || closeTabAfter {
        effects := effects + [RemoveTab(Some(tab))];
      }
      var next := NextAction(p.request);
      effects := effects + next;
    }

    /** `nextAction`: take the next item off the queue and start on it, unless the save was cancelled. */
    method NextAction(request: Request) returns (effects: seq<Effect>)
      modifies this`selectedTabIds, this`listedURLs, this`currentTabId
      ensures Queue() == old(QueueAfter(request))
      ensures currentTabId == old(CurrentAfter(request))
      ensures effects == old(PendingEffects(request))
    {
      var menuaction := request.command.menuaction;
      effects := [];
      if menuaction == 0 {
        if cancelSave {
        } else if |selectedTabIds| > 0 {
          currentTabId := Some(selectedTabIds[0]);
          selectedTabIds := selectedTabIds[1..];
          effects := [LoadTab(currentTabId.value, loadLazyContent, request)];
        } else if applyAutomation {
          effects := [ScheduleAutomationClose];
        }
      } else if menuaction == 1 {
        if cancelSave {
        } else if |listedURLs| > 0 {
          var url := listedURLs[0];
          listedURLs := listedURLs[1..];
          effects := [OpenListedUrl(saveWindowId, url, loadLazyContent, request)];
        } else if applyAutomation {
          effects := [ScheduleAutomationClose];
        }
      } else {
        if |selectedTabIds| > 0 {
          currentTabId := Some(selectedTabIds[0]);
          selectedTabIds := selectedTabIds[1..];
          effects := [PerformOnTab(currentTabId.value, request)];
        }
      }
    }

    /**
     * `performAction` on the tab `tabs.get` returned (None when the tab is
     * gone) and the outcome of the policy check's `HEAD` request. A failed
     * pre-check alerts and goes on with the queue without touching any table;
     * otherwise the parameters are stored (even when the action is then
     * refused) and the tab's state decides the branch.
     */
    method PerformAction(request: Request, tab: Option<TabInfo>, head: HeadOutcome) returns (effects: seq<Effect>)
      modifies this`tabSaveStates, this`tabSaveParams, this`selectedTabIds, this`listedURLs, this`currentTabId
      ensures tab.None? ==>
        effects == [] && tabSaveStates == old(tabSaveStates) && tabSaveParams == old(tabSaveParams) &&
        Queue() == old(Queue()) && currentTabId == old(currentTabId)
      ensures tab.Some? && PreCheckAlert(request.command.menuaction, tab.value, old(PageTypeOf(tab.value.id))).Some? ==>
        tabSaveStates == old(tabSaveStates) && tabSaveParams == old(tabSaveParams) &&
        effects == [Notify(PreCheckAlert(request.command.menuaction, tab.value, old(PageTypeOf(tab.value.id))).value)] +
          old(PendingEffects(request)) &&
        Queue() == old(QueueAfter(request)) && currentTabId == old(CurrentAfter(request))
      ensures tab.Some? && PreCheckAlert(request.command.menuaction, tab.value, old(PageTypeOf(tab.value.id))).None? ==>
        var t := tab.value;
        var params := SaveParams(request, !CspAllowsDownloadAsWritten(t.url, head));
        var d := DispatchOn(old(StateOf(t.id)));
        tabSaveParams == old(tabSaveParams)[t.id := params] &&
        (if DispatchTarget(d).Some? then tabSaveStates == old(tabSaveStates)[t.id := DispatchTarget(d).value]
         else tabSaveStates == old(tabSaveStates)) &&
        (d == LoadScripts ==> effects == InjectionEffects(t.id)) &&
        (d == StartOperation ==> effects == [SendPerformAction(t.id, params)]) &&
        (d == AlreadyInProgress ==> effects == [Notify(InProgressAlert(t))] + old(PendingEffects(request))) &&
        (d == NoBranch ==> effects == []) &&
        (d == AlreadyInProgress ==> Queue() == old(QueueAfter(request)) && currentTabId == old(CurrentAfter(request))) &&
        (d != AlreadyInProgress ==> Queue() == old(Queue()) && currentTabId == old(currentTabId))
    {
      if tab.None? {
        return [];
      }
      var t := tab.value;
      var alert := PreCheckAlert(request.command.menuaction, t, PageTypeOf(t.id));
      if alert.Some? {
        var next := NextAction(request);
        return [Notify(alert.value)] + next;
      }
      var allowed := CspAllowsDownloadAsWritten(t.url, head);
      var params := SaveParams(request, !allowed);
      tabSaveParams := tabSaveParams[t.id := params];
      if t.id !in tabSaveStates || tabSaveStates[t.id] <= -4 {
        tabSaveStates := tabSaveStates[t.id := ScriptLoading];
        effects := InjectionEffects(t.id);
      } else if tabSaveStates[t.id] == -2 || (tabSaveStates[t.id] >= 6 && tabSaveStates[t.id] <= 8) {
        tabSaveStates := tabSaveStates[t.id := OperationStarted];
        effects := [SendPerformAction(t.id, params)];
      } else if tabSaveStates[t.id] >= -1 && tabSaveStates[t.id] <= 5 {
        var next := NextAction(request);
        effects := [Notify(InProgressAlert(t))] + next;
      } else {
        effects := [];
      }
    }

    /**
     * `initiateAction` in the last-focused window `window` holding `tabs`:
     * build the queue for the action and start on it; the calls that bring
     * each selected tab forward come first and those that un-highlight
     * inactive tabs last.
     */
    method InitiateAction(command: Command, window: WindowId, tabs: seq<TabInfo>) returns (effects: seq<Effect>)
      modifies this`saveWindowId, this`selectedTabIds, this`listedURLs, this`cancelSave, this`currentTabId
      ensures saveWindowId == Some(window)
      ensures var m := command.menuaction;
        var built := BuiltQueues(m, old(Queue()), tabs, applyAutomation, urlListURLs);
        var before := if m == 0 then ActivateAll(built.selectedTabIds) + [ActivateTab(LastActiveTabId(tabs))] else [];
        var after := UnhighlightAll(TabIds(Filter(tabs, HighlightedInactive)));
        var request := Request(command, MultipleSaves(m, built));
        var step := NextStep(m, built, false, applyAutomation);
        if Starts(m, built) then
          !cancelSave && Queue() == AfterStep(m, built, false, applyAutomation) &&
          currentTabId == (if step.TakeTab? then Some(step.tab) else old(currentTabId)) &&
          effects == before + StepEffects(request, step, Some(window), loadLazyContent) + after
        else
          cancelSave == old(cancelSave) && Queue() == built && currentTabId == old(currentTabId) &&
          effects == before + [Notify(NothingToSaveAlert(m, applyAutomation))] + after
    {
      saveWindowId := Some(window);
      var before := BuildQueue(command.menuaction, tabs);
      var started := StartQueue(command);
      var dim := CollectTabIds(tabs, HighlightedInactive);
      effects := before + started + UnhighlightAll(dim);
    }

    /** The first part of each branch of `initiateAction`: fill the action's queue; a selected-tab save also brings each selected tab forward and then the active tab back. */
    method BuildQueue(m: int, tabs: seq<TabInfo>) returns (before: seq<Effect>)
      modifies this`selectedTabIds, this`listedURLs
      ensures Queue() == BuiltQueues(m, old(Queue()), tabs, applyAutomation, urlListURLs)
      ensures before == if m == 0 then ActivateAll(selectedTabIds) + [ActivateTab(LastActiveTabId(tabs))] else []
    {
      before := [];
      if m == 0 {
        var ids := CollectTabIds(tabs, SaveSelection(applyAutomation));
        selectedTabIds := ids;
        var active := ActiveTabId(tabs);
        before := ActivateAll(ids) + [ActivateTab(active)];
      } else if m == 1 {
        var urls := Retain(urlListURLs, IsSavableUrl);
        listedURLs := urls;
      } else {
        var ids := CollectTabIds(tabs, IsActive);
        selectedTabIds := ids;
      }
    }

    /** The end of each branch of `initiateAction`: with something queued, clear the cancel flag and call `nextAction`; otherwise alert. */
    method StartQueue(command: Command) returns (effects: seq<Effect>)
      modifies this`selectedTabIds, this`listedURLs, this`cancelSave, this`currentTabId
      ensures var m := command.menuaction;
        var built := old(Queue());
        var step := NextStep(m, built, false, applyAutomation);
        if Starts(m, built) then
          !cancelSave && Queue() == AfterStep(m, built, false, applyAutomation) &&
          currentTabId == (if step.TakeTab? then Some(step.tab) else old(currentTabId)) &&
          effects == StepEffects(Request(command, MultipleSaves(m, built)), step, saveWindowId, loadLazyContent)
        else
          cancelSave == old(cancelSave) && Queue() == built && currentTabId == old(currentTabId) &&
          effects == [Notify(NothingToSaveAlert(m, applyAutomation))]
    {
      var m := command.menuaction;
      if m == 0 && |selectedTabIds| == 0 {
        effects := [Notify(NothingToSaveAlert(0, applyAutomation))];
      } else if m == 1 && |listedURLs| == 0 {
        effects := [Notify(NothingToSaveAlert(1, applyAutomation))];
      } else {
        cancelSave := false;
        effects := NextAction(Request(command, MultipleSaves(m, Queue())));
      }
    }

    /** `cancelAction`: stop the queue, end automation and tell the current tab's script. */
    method CancelAction() returns (effects: seq<Effect>)
      modifies this`cancelSave, this`applyAutomation
      ensures cancelSave && !applyAutomation
      ensures effects == [SendCancelSave(currentTabId)]
    {
      cancelSave := true;
      applyAutomation := false;
      effects := [SendCancelSave(currentTabId)];
    }

    /** The `tabs.create` callback of a listed-URL save: the new tab becomes the current one. */
    method ListedUrlTabCreated(tab: TabId)
      modifies this`currentTabId
      ensures currentTabId == Some(tab)
    {
      currentTabId := Some(tab);
    }

    /** The page-load timer of `nextAction` fired: a tab opened for a listed URL is closed, and the queue goes on. */
    method PageLoadTimedOut(request: Request) returns (effects: seq<Effect>)
      modifies this`selectedTabIds, this`listedURLs, this`currentTabId
      ensures Queue() == old(QueueAfter(request)) && currentTabId == old(CurrentAfter(request))
      ensures effects ==
        (if request.command.menuaction == 1 then [RemoveTab(old(currentTabId))] else []) + old(PendingEffects(request))
    {
      effects := [];
      if request.command.menuaction == 1 {
        effects := [RemoveTab(currentTabId)];
      }
      var next := NextAction(request);
      effects := effects + next;
    }

    /** The automation timer fired: close the last-focused window `window` unless the save was cancelled meanwhile. */
    method AutomationTimerFired(window: WindowId) returns (effects: seq<Effect>)
      ensures effects == if cancelSave then [] else [CloseWindow(window)]
    {
      effects := if cancelSave then [] else [CloseWindow(window)];
    }
  }
}
