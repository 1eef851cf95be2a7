/** What the extension reads of the browser's tab objects (`chrome.tabs.Tab`). */
module Browser {

  type TabId = int
  type WindowId = int

  /** A tab as `chrome.tabs.query` or `chrome.tabs.get` reports it; `complete` is `status == "complete"`. */
  datatype TabInfo = TabInfo(
    id: TabId,
    url: string,
    title: string,
    active: bool,
    highlighted: bool,
    complete: bool)
}
