/**
 * The two page-gating decisions of the background script: whether a URL is a
 * page the extension cannot work on (`specialPage`), and whether the page's
 * Content-Security-Policy lets it download (`checkContentSecurityPolicy`).
 */
module PageGate {

  import opened Wrappers
  import opened JsBuiltins

  /** The URL prefixes of pages the extension cannot be used with. */
  const SpecialPrefixes: seq<string> := [
    "about:", "chrome:", "view-source:", "moz-extension:",
    "https://addons.mozilla.org", "https://support.mozilla.org",
    "chrome-extension:", "https://chrome.google.com/webstore"]

  /** `specialPage(url)`, one `url.substr(0, n) == prefix` test per prefix. */
  predicate SpecialPage(url: string) {
    Substr0(url, 6) == "about:" || Substr0(url, 7) == "chrome:" || Substr0(url, 12) == "view-source:" ||
    Substr0(url, 14) == "moz-extension:" || Substr0(url, 26) == "https://addons.mozilla.org" ||
    Substr0(url, 27) == "https://support.mozilla.org" ||
    Substr0(url, 17) == "chrome-extension:" || Substr0(url, 34) == "https://chrome.google.com/webstore"
  }

  /** Each `substr` length matches its prefix, so a URL is special exactly when it starts with one of the eight prefixes. */
  lemma SpecialPagePrefixes(url: string)
    ensures SpecialPage(url) <==> exists i :: 0 <= i < |SpecialPrefixes| && SpecialPrefixes[i] <= url
  {
    forall i | 0 <= i < |SpecialPrefixes| {
      Substr0Prefix(url, SpecialPrefixes[i]);
    }
    assert |SpecialPrefixes[0]| == 6 && |SpecialPrefixes[1]| == 7 && |SpecialPrefixes[2]| == 12;
    assert |SpecialPrefixes[3]| == 14 && |SpecialPrefixes[4]| == 26 && |SpecialPrefixes[5]| == 27;
    assert |SpecialPrefixes[6]| == 17 && |SpecialPrefixes[7]| == 34;
  }

  // ---------------------------------------------------------------------------
  // Content-Security-Policy

  /** How the `HEAD` request for the page ended: it threw, or a status and the Content-Security-Policy header. */
  datatype HeadOutcome = HeadFailed | HeadResponse(status: nat, csp: Option<string>)

  /** The word "sandbox" starts at k, at the start of the policy or after ';' or whitespace. */
  predicate SandboxNameAt(s: string, k: nat) {
    k + 7 <= |s| && (k == 0 || s[k - 1] == ';' || IsWhitespace(s[k - 1])) && s[k..k + 7] == "sandbox"
  }

  /** `/(^|;|\s)sandbox\s/` finds "sandbox" at k: the name followed by whitespace. */
  predicate SandboxAsWrittenAt(s: string, k: nat) {
    SandboxNameAt(s, k) && k + 7 < |s| && IsWhitespace(s[k + 7])
  }

  /** The sandbox directive at k, followed by its tokens, by ';' or by the end of the policy. */
  predicate SandboxDirectiveAt(s: string, k: nat) {
    SandboxNameAt(s, k) && (k + 7 == |s| || s[k + 7] == ';' || IsWhitespace(s[k + 7]))
  }

  /** `/\sallow-downloads($|;|\s)/` matches at k. */
  predicate AllowDownloadsAt(s: string, k: nat) {
    k + 16 <= |s| && IsWhitespace(s[k]) && s[k + 1..k + 16] == "allow-downloads" &&
    (k + 16 == |s| || s[k + 16] == ';' || IsWhitespace(s[k + 16]))
  }

  /** The first k at or after `from` where `at` holds, or -1: a regular-expression `search`. */
  function Search(s: string, at: (string, nat) -> bool, from: nat): (r: int)
    ensures r == -1 || (from <= r <= |s| && at(s, r))
    ensures r >= 0 ==> forall k :: from <= k < r ==> !at(s, k)
    ensures r < 0 ==> forall k :: from <= k <= |s| ==> !at(s, k)
    decreases |s| + 1 - from
  {
    if from > |s| then -1
    else if at(s, from) then from
    else Search(s, at, from + 1)
  }

  /** The text of the header, lower-cased; an absent header reads as "". */
  function Policy(csp: Option<string>): string {
    ToLowerCase(csp.GetOr(""))
  }

  /** `checkContentSecurityPolicy` as written: the sandbox name must be followed by whitespace. */
  function CspAllowsDownloadAsWritten(url: string, head: HeadOutcome): bool {
    if Substr0(url, 8) == "file:///" then true
    else match head
      case HeadFailed => false
      case HeadResponse(status, csp) =>
        if status != 200 then false
        else
          var policy := Policy(csp);
          var namepos := Search(policy, SandboxAsWrittenAt, 0);
          var valuepos := Search(policy, AllowDownloadsAt, 0);
          namepos < 0 || valuepos >= 0
  }

  /** `checkContentSecurityPolicy` with the sandbox directive recognised also when no token follows it. */
  function CspAllowsDownload(url: string, head: HeadOutcome): bool {
    if Substr0(url, 8) == "file:///" then true
    else match head
      case HeadFailed => false
      case HeadResponse(status, csp) =>
        if status != 200 then false
        else
          var policy := Policy(csp);
          var namepos := Search(policy, SandboxDirectiveAt, 0);
          var valuepos := Search(policy, AllowDownloadsAt, 0);
          namepos < 0 || valuepos >= 0
  }

  /**
   * The download decision as written: local files are allowed; otherwise the
   * `HEAD` request must answer 200, and then the policy must have no
   * "sandbox" name followed by whitespace, or an `allow-downloads` token.
   */
  lemma CspDecisionAsWritten(url: string, head: HeadOutcome)
    ensures CspAllowsDownloadAsWritten(url, head) <==>
      "file:///" <= url ||
      (head.HeadResponse? && head.status == 200 &&
        ((forall k :: !SandboxAsWrittenAt(Policy(head.csp), k)) ||
         (exists k :: AllowDownloadsAt(Policy(head.csp), k))))
  {
    Substr0Prefix(url, "file:///");
  }

  /**
   * The corrected download decision: as above, but any sandbox directive
   * counts, whether whitespace, ';' or the end of the policy follows it.
   */
  lemma CspDecision(url: string, head: HeadOutcome)
    ensures CspAllowsDownload(url, head) <==>
      "file:///" <= url ||
      (head.HeadResponse? && head.status == 200 &&
        ((forall k :: !SandboxDirectiveAt(Policy(head.csp), k)) ||
         (exists k :: AllowDownloadsAt(Policy(head.csp), k))))
  {
    Substr0Prefix(url, "file:///");
  }

  /** As written, a policy that is just "sandbox" is taken to allow downloads, though a bare sandbox directive forbids them. */
  lemma BareSandboxCounterexample()
    ensures CspAllowsDownloadAsWritten("https://example.com/", HeadResponse(200, Some("sandbox")))
    ensures !CspAllowsDownload("https://example.com/", HeadResponse(200, Some("sandbox")))
  {
    assert Substr0("https://example.com/", 8)[0] == 'h';
    var policy := Policy(Some("sandbox"));
    assert policy == "sandbox";
    assert SandboxDirectiveAt(policy, 0);
    assert Search(policy, SandboxDirectiveAt, 0) >= 0;
    assert Search(policy, AllowDownloadsAt, 0) < 0;
  }

  /** With the correction, a policy with a sandbox directive (tokens or not) and no allow-downloads token forbids the download. */
  lemma SandboxWithoutAllowDownloadsDenies(url: string, csp: string, k: nat)
    requires !("file:///" <= url)
    requires SandboxDirectiveAt(ToLowerCase(csp), k)
    requires forall j :: !AllowDownloadsAt(ToLowerCase(csp), j)
    ensures !CspAllowsDownload(url, HeadResponse(200, Some(csp)))
  {
    CspDecision(url, HeadResponse(200, Some(csp)));
  }

  /** The correction only makes the check stricter, and only a sandbox name without following whitespace tells them apart. */
  lemma CorrectionOnlyStricter(url: string, head: HeadOutcome)
    ensures CspAllowsDownload(url, head) ==> CspAllowsDownloadAsWritten(url, head)
    ensures (head.HeadResponse? &&
             forall k :: SandboxDirectiveAt(Policy(head.csp), k) ==> SandboxAsWrittenAt(Policy(head.csp), k)) ==>
      CspAllowsDownload(url, head) == CspAllowsDownloadAsWritten(url, head)
  {
    if head.HeadResponse? {
      var policy := Policy(head.csp);
      if Search(policy, SandboxDirectiveAt, 0) < 0 {
        assert forall k :: SandboxAsWrittenAt(policy, k) ==> SandboxDirectiveAt(policy, k);
        assert Search(policy, SandboxAsWrittenAt, 0) < 0;
      }
    }
  }
}
