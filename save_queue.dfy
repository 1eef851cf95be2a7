/**
 * The save queue of the background script: which tabs `initiateAction`
 * selects (and in what order), which listed URLs it keeps, and how
 * `nextAction` takes the next item from the front of the queue.
 */
module SaveQueue {

  import opened Wrappers
  import opened Browser
  import opened PageGate
  import opened Seqs

  // ---------------------------------------------------------------------------
  // The filter loops of `initiateAction`, which `push` what they keep

  /** The filter loop itself: `for (i ...) if (keep(s[i])) r.push(s[i])`. */
  method Retain<T>(s: seq<T>, keep: T -> bool) returns (r: seq<T>)
    ensures r == Filter(s, keep)
  {
    r := [];
    for i := 0 to |s|
      invariant r == Filter(s[..i], keep)
    {
      assert s[..i + 1][..i] == s[..i];
      if keep(s[i]) {
        r := r + [s[i]];
      }
    }
    assert s[..|s|] == s;
  }

  /** The ids of the tabs, in order. */
  function TabIds(tabs: seq<TabInfo>): (ids: seq<TabId>)
    ensures |ids| == |tabs|
    ensures forall i :: 0 <= i < |tabs| ==> ids[i] == tabs[i].id
  {
    seq(|tabs|, i requires 0 <= i < |tabs| => tabs[i].id)
  }

  /** The loop that pushes the id of each kept tab onto `selectedTabIds`. */
  method CollectTabIds(tabs: seq<TabInfo>, keep: TabInfo -> bool) returns (ids: seq<TabId>)
    ensures ids == TabIds(Filter(tabs, keep))
  {
    ids := [];
    for i := 0 to |tabs|
      invariant ids == TabIds(Filter(tabs[..i], keep))
    {
      assert tabs[..i + 1][..i] == tabs[..i];
      if keep(tabs[i]) {
        ids := ids + [tabs[i].id];
      }
    }
    assert tabs[..|tabs|] == tabs;
  }

  // ---------------------------------------------------------------------------
  // What each kind of action selects

  /** "Save selected tabs" keeps a tab that is highlighted or active (every tab under automation) and is not special, except that `about:blank` is kept. */
  predicate SelectedForSave(t: TabInfo, automation: bool) {
    (t.highlighted || t.active || automation) && (!SpecialPage(t.url) || t.url == "about:blank")
  }

  /** The selection rule as a function value, for the filter loop. */
  function SaveSelection(automation: bool): (keep: TabInfo -> bool)
    ensures forall t :: keep(t) == SelectedForSave(t, automation)
  {
    t => SelectedForSave(t, automation)
  }

  /** The other actions work on the active tab. */
  predicate IsActive(t: TabInfo) {
    t.active
  }

  /** A tab that stays highlighted although it is not active; `initiateAction` un-highlights these. */
  predicate HighlightedInactive(t: TabInfo) {
    t.highlighted && !t.active
  }

  /** A listed URL is kept when it is not a special page. */
  predicate IsSavableUrl(url: string) {
    !SpecialPage(url)
  }

  /**
   * The selected tab ids keep window order; each belongs to a tab that is
   * selected, and every selected tab of the window is there.
   */
  lemma SelectedTabsInWindowOrder(tabs: seq<TabInfo>, automation: bool) returns (pos: seq<nat>)
    ensures |pos| == |TabIds(Filter(tabs, SaveSelection(automation)))|
    ensures forall j, k :: 0 <= j < k < |pos| ==> pos[j] < pos[k]
    ensures forall j :: 0 <= j < |pos| ==>
      pos[j] < |tabs| && SelectedForSave(tabs[pos[j]], automation) &&
      TabIds(Filter(tabs, SaveSelection(automation)))[j] == tabs[pos[j]].id
    ensures forall i :: 0 <= i < |tabs| && SelectedForSave(tabs[i], automation) ==> i in pos
  {
    var keep := SaveSelection(automation);
    pos := FilterPositions(tabs, keep);
    forall j | 0 <= j < |pos|
      ensures SelectedForSave(tabs[pos[j]], automation)
    {
      assert Filter(tabs, keep)[j] in Filter(tabs, keep);
    }
  }

  /** A special URL other than `about:blank` is never selected; `about:blank` is, whenever the tab is highlighted or active. */
  lemma SpecialPagesNotSelected(t: TabInfo, automation: bool)
    ensures SpecialPage(t.url) && t.url != "about:blank" ==> !SelectedForSave(t, automation)
    ensures t.url == "about:blank" ==> (SelectedForSave(t, automation) <==> t.highlighted || t.active || automation)
  {
  }

  /** Listed URLs keep their order, and exactly the non-special ones stay. */
  lemma ListedUrlsFiltered(urls: seq<string>) returns (pos: seq<nat>)
    ensures |pos| == |Filter(urls, IsSavableUrl)|
    ensures forall j, k :: 0 <= j < k < |pos| ==> pos[j] < pos[k]
    ensures forall j :: 0 <= j < |pos| ==> pos[j] < |urls| && Filter(urls, IsSavableUrl)[j] == urls[pos[j]]
    ensures forall i :: 0 <= i < |urls| ==> (i in pos <==> !SpecialPage(urls[i]))
  {
    pos := FilterPositions(urls, IsSavableUrl);
    forall i | 0 <= i < |urls| && i in pos
      ensures !SpecialPage(urls[i])
    {
      var j :| 0 <= j < |pos| && pos[j] == i;
      assert Filter(urls, IsSavableUrl)[j] in Filter(urls, IsSavableUrl);
    }
  }

  // ---------------------------------------------------------------------------
  // The active tab to reinstate

  /** The id of the last tab of the window that is active, as the overwriting loop leaves it; None stands for `undefined`. */
  function LastActiveTabId(tabs: seq<TabInfo>): Option<TabId>
    decreases |tabs|
  {
    if tabs == [] then None
    else if tabs[|tabs| - 1].active then Some(tabs[|tabs| - 1].id)
    else LastActiveTabId(tabs[..|tabs| - 1])
  }

  /** There is no active tab id exactly when no tab is active. */
  lemma {:induction false} LastActiveTabIdNone(tabs: seq<TabInfo>)
    ensures LastActiveTabId(tabs).None? <==> forall i :: 0 <= i < |tabs| ==> !tabs[i].active
    decreases |tabs|
  {
    if tabs != [] {
      var init := tabs[..|tabs| - 1];
      LastActiveTabIdNone(init);
      assert forall i :: 0 <= i < |init| ==> init[i] == tabs[i];
    }
  }

  /** Otherwise the id is that of an active tab that no later tab overrides. */
  lemma {:induction false} LastActiveTabIdPosition(tabs: seq<TabInfo>) returns (i: nat)
    requires LastActiveTabId(tabs).Some?
    ensures i < |tabs| && tabs[i].active && tabs[i].id == LastActiveTabId(tabs).value
    ensures forall j :: i < j < |tabs| ==> !tabs[j].active
    decreases |tabs|
  {
    var n := |tabs|;
    if tabs[n - 1].active {
      i := n - 1;
    } else {
      var init := tabs[..n - 1];
      i := LastActiveTabIdPosition(init);
      assert init[i] == tabs[i];
      forall j | i < j < n
        ensures !tabs[j].active
      {
        if j < n - 1 {
          assert init[j] == tabs[j];
        }
      }
    }
  }

  /** The loop of `initiateAction` that finds the active tab. */
  method ActiveTabId(tabs: seq<TabInfo>) returns (id: Option<TabId>)
    ensures id == LastActiveTabId(tabs)
  {
    id := None;
    for i := 0 to |tabs|
      invariant id == LastActiveTabId(tabs[..i])
    {
      assert tabs[..i + 1][..i] == tabs[..i];
      if tabs[i].active {
        id := Some(tabs[i].id);
      }
    }
    assert tabs[..|tabs|] == tabs;
  }

  // ---------------------------------------------------------------------------
  // `nextAction`: taking the next item off the queue

  /** The two queues: tab ids for "save selected tabs" and the later actions, URLs for "save listed URLs". */
  datatype Queues = Queues(selectedTabIds: seq<TabId>, listedURLs: seq<string>)

  /** What `nextAction` does next: nothing, work on a tab, open a listed URL, or schedule closing the automation window. */
  datatype Step = Stay | TakeTab(tab: TabId) | TakeUrl(url: string) | EndAutomation

  /** The branch `nextAction` takes for an action on the given queues. */
  function NextStep(menuaction: int, q: Queues, cancelSave: bool, applyAutomation: bool): Step {
    if menuaction == 0 then
      if cancelSave then Stay
      else if |q.selectedTabIds| > 0 then TakeTab(q.selectedTabIds[0])
      else if applyAutomation then EndAutomation
      else Stay
    else if menuaction == 1 then
      if cancelSave then Stay
      else if |q.listedURLs| > 0 then TakeUrl(q.listedURLs[0])
      else if applyAutomation then EndAutomation
      else Stay
    else if |q.selectedTabIds| > 0 then TakeTab(q.selectedTabIds[0])
    else Stay
  }

  /** The queues after that branch: the `shift()` of the queue it took from. */
  function AfterStep(menuaction: int, q: Queues, cancelSave: bool, applyAutomation: bool): Queues {
    match NextStep(menuaction, q, cancelSave, applyAutomation)
    case TakeTab(_) => q.(selectedTabIds := q.selectedTabIds[1..])
    case TakeUrl(_) => q.(listedURLs := q.listedURLs[1..])
    case _ => q
  }

  /** A step takes the head of its queue and removes exactly that element; the other steps change no queue. */
  lemma NextStepTakesHead(menuaction: int, q: Queues, cancelSave: bool, applyAutomation: bool)
    ensures NextStep(menuaction, q, cancelSave, applyAutomation).TakeTab? ==>
      menuaction != 1 && q.selectedTabIds != [] &&
      [NextStep(menuaction, q, cancelSave, applyAutomation).tab] + AfterStep(menuaction, q, cancelSave, applyAutomation).selectedTabIds == q.selectedTabIds &&
      AfterStep(menuaction, q, cancelSave, applyAutomation).listedURLs == q.listedURLs
    ensures NextStep(menuaction, q, cancelSave, applyAutomation).TakeUrl? ==>
      menuaction == 1 && q.listedURLs != [] &&
      [NextStep(menuaction, q, cancelSave, applyAutomation).url] + AfterStep(menuaction, q, cancelSave, applyAutomation).listedURLs == q.listedURLs &&
      AfterStep(menuaction, q, cancelSave, applyAutomation).selectedTabIds == q.selectedTabIds
    ensures NextStep(menuaction, q, cancelSave, applyAutomation) in {Stay, EndAutomation} ==>
      AfterStep(menuaction, q, cancelSave, applyAutomation) == q
  {
  }

  /** For "save selected tabs" and "save listed URLs", a cancelled save takes nothing and schedules nothing. */
  lemma CancelStopsQueue(menuaction: int, q: Queues, applyAutomation: bool)
    requires menuaction == 0 || menuaction == 1
    ensures NextStep(menuaction, q, true, applyAutomation) == Stay
    ensures AfterStep(menuaction, q, true, applyAutomation) == q
  {
  }

  /** The later actions (page info, remove resource loader, extract media) ignore both the cancel flag and automation, and never touch the URL queue. */
  lemma LaterActionsIgnoreCancel(menuaction: int, q: Queues, cancelSave: bool, applyAutomation: bool)
    requires menuaction != 0 && menuaction != 1
    ensures NextStep(menuaction, q, cancelSave, applyAutomation) == NextStep(menuaction, q, false, false)
    ensures q.selectedTabIds != [] ==> NextStep(menuaction, q, cancelSave, applyAutomation) == TakeTab(q.selectedTabIds[0])
    ensures q.selectedTabIds == [] ==> NextStep(menuaction, q, cancelSave, applyAutomation) == Stay
    ensures !NextStep(menuaction, q, cancelSave, applyAutomation).TakeUrl?
  {
  }

  /** The steps `nextAction` takes, one per finished item, while nothing cancels the save. */
  function Run(menuaction: int, q: Queues, cancelSave: bool, applyAutomation: bool): (steps: seq<Step>)
    ensures |steps| >= 1
    decreases |q.selectedTabIds| + |q.listedURLs|
  {
    var s := NextStep(menuaction, q, cancelSave, applyAutomation);
    if s.TakeTab? || s.TakeUrl? then
      [s] + Run(menuaction, AfterStep(menuaction, q, cancelSave, applyAutomation), cancelSave, applyAutomation)
    else [s]
  }

  /** Without a cancel, "save selected tabs" works through the selected tabs front to back and then ends automation if it is on. */
  lemma {:induction false} RunSavesSelectedInOrder(q: Queues, applyAutomation: bool)
    ensures |Run(0, q, false, applyAutomation)| == |q.selectedTabIds| + 1
    ensures forall i :: 0 <= i < |q.selectedTabIds| ==> Run(0, q, false, applyAutomation)[i] == TakeTab(q.selectedTabIds[i])
    ensures Run(0, q, false, applyAutomation)[|q.selectedTabIds|] == if applyAutomation then EndAutomation else Stay
    decreases |q.selectedTabIds|
  {
    if q.selectedTabIds != [] {
      var rest := q.(selectedTabIds := q.selectedTabIds[1..]);
      RunSavesSelectedInOrder(rest, applyAutomation);
      assert Run(0, q, false, applyAutomation) == [TakeTab(q.selectedTabIds[0])] + Run(0, rest, false, applyAutomation);
    }
  }

  /** Without a cancel, "save listed URLs" opens the listed URLs front to back and then ends automation if it is on. */
  lemma {:induction false} RunOpensListedInOrder(q: Queues, applyAutomation: bool)
    ensures |Run(1, q, false, applyAutomation)| == |q.listedURLs| + 1
    ensures forall i :: 0 <= i < |q.listedURLs| ==> Run(1, q, false, applyAutomation)[i] == TakeUrl(q.listedURLs[i])
    ensures Run(1, q, false, applyAutomation)[|q.listedURLs|] == if applyAutomation then EndAutomation else Stay
    decreases |q.listedURLs|
  {
    if q.listedURLs != [] {
      var rest := q.(listedURLs := q.listedURLs[1..]);
      RunOpensListedInOrder(rest, applyAutomation);
      assert Run(1, q, false, applyAutomation) == [TakeUrl(q.listedURLs[0])] + Run(1, rest, false, applyAutomation);
    }
  }
}
