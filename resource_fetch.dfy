/**
 * The background script's resource loader (`loadResource` and the sender check
 * of the "loadResource" message). The fetch itself is an input: it was aborted
 * by the `maxResourceTime` timer, it failed, or it produced a response whose
 * body may still fail to read. The result is the one `loadSuccess` or
 * `loadFailure` message sent back to the requesting tab.
 */
module ResourceFetch {

  import opened Wrappers
  import opened JsBuiltins

  type byte = b: int | 0 <= b < 256

  /** What `response.arrayBuffer()` gives: the bytes, or a rejection. */
  datatype Body = BodyBytes(bytes: seq<byte>) | BodyError

  /**
   * How the `fetch` call ended. `contentType` is the Content-Type header (None
   * when absent); `contentLength` is the Number that unary `+` makes of the
   * Content-Length header (None when the header is absent).
   */
  datatype FetchOutcome =
    | Aborted
    | FetchError
    | Response(status: nat, contentType: Option<string>, contentLength: Option<JsNumber>, body: Body)

  /** The failure reasons the loader reports. */
  datatype FailureReason = Ignored | LoadStatus(status: nat) | MaxSize | Blocked | MaxTime | FetchErr

  /** The messages sent back to the tab; `index` correlates the reply with its request. */
  datatype Message =
    | LoadSuccess(index: int, reason: string, content: string, mimetype: string, charset: string)
    | LoadFailure(index: int, reason: string)

  const SuccessReason: string := "*"

  /** The `reason` text of each failure. */
  function ReasonText(r: FailureReason): string {
    match r
    case Ignored => "ignored*"
    case LoadStatus(status) => "load:" + DecimalString(status) + "*"
    case MaxSize => "maxsize*"
    case Blocked => "blocked*"
    case MaxTime => "maxtime*"
    case FetchErr => "fetcherr*"
  }

  /** How a receiver reads a `reason` text back. */
  function ParseReason(text: string): Option<FailureReason> {
    if text == "ignored*" then Some(Ignored)
    else if text == "maxsize*" then Some(MaxSize)
    else if text == "blocked*" then Some(Blocked)
    else if text == "maxtime*" then Some(MaxTime)
    else if text == "fetcherr*" then Some(FetchErr)
    else if |text| >= 7 && text[..5] == "load:" && text[|text| - 1] == '*' && AllDigits(text[5..|text| - 1])
    then Some(LoadStatus(DecimalValue(text[5..|text| - 1])))
    else None
  }

  /** Every failure reason text is read back as that failure, so distinct failures (and statuses) are never confused. */
  lemma ReasonRoundTrip(r: FailureReason)
    ensures ParseReason(ReasonText(r)) == Some(r)
  {
    if r.LoadStatus? {
      var d := DecimalString(r.status);
      var text := "load:" + d + "*";
      assert text[..5] == "load:";
      assert text[5..|text| - 1] == d;
      DecimalRoundTrip(r.status);
    }
  }

  /** The success reason is not a failure reason. */
  lemma SuccessReasonIsNotAFailure()
    ensures ParseReason(SuccessReason) == None
  {
  }

  // ---------------------------------------------------------------------------
  // Content-Type

  predicate NoSemicolon(s: string) {
    forall i :: 0 <= i < |s| ==> s[i] != ';'
  }

  predicate AllSemicolons(s: string) {
    forall i :: 0 <= i < |s| ==> s[i] == ';'
  }

  /** The longest prefix of s without a ';' (what the greedy `[^;]+` takes from where it starts). */
  function RunWithoutSemicolon(s: string): (r: string)
    ensures r <= s && NoSemicolon(r)
    ensures |r| == |s| || s[|r|] == ';'
  {
    if s == [] || s[0] == ';' then [] else [s[0]] + RunWithoutSemicolon(s[1..])
  }

  /** `s.match(/([^;]+)/i)`: group 1 of the leftmost match, or null. */
  function FirstRunMatch(s: string): Option<string> {
    if s == [] then None
    else if s[0] == ';' then FirstRunMatch(s[1..])
    else Some(RunWithoutSemicolon(s))
  }

  /** The mimetype the loader reports for a Content-Type value. */
  function MimeTypeOf(contentType: string): string {
    match FirstRunMatch(contentType)
    case Some(m) => ToLowerCase(m)
    case None => ""
  }

  lemma {:induction false} RunOfDecomposition(m: string, rest: string)
    requires NoSemicolon(m) && (rest == [] || rest[0] == ';')
    ensures RunWithoutSemicolon(m + rest) == m
    decreases |m|
  {
    if m != [] {
      assert (m + rest)[1..] == m[1..] + rest;
      RunOfDecomposition(m[1..], rest);
    }
  }

  /**
   * The mimetype is the first maximal run of characters other than ';',
   * lower-cased: for a Content-Type made of leading semicolons, a run m and a
   * rest that is empty or starts with ';', the mimetype is m lower-cased.
   */
  lemma {:induction false} MimeTypeDecomposition(lead: string, m: string, rest: string)
    requires AllSemicolons(lead) && m != [] && NoSemicolon(m) && (rest == [] || rest[0] == ';')
    ensures MimeTypeOf(lead + m + rest) == ToLowerCase(m)
    decreases |lead|
  {
    if lead == [] {
      assert lead + m + rest == m + rest;
      RunOfDecomposition(m, rest);
    } else {
      assert (lead + m + rest)[1..] == lead[1..] + m + rest;
      MimeTypeDecomposition(lead[1..], m, rest);
    }
  }

  /** The mimetype is empty exactly when the Content-Type has nothing but semicolons (an absent header reads as ""). */
  lemma {:induction false} MimeTypeEmpty(s: string)
    ensures MimeTypeOf(s) == "" <==> AllSemicolons(s)
    decreases |s|
  {
    if s != [] && s[0] == ';' {
      MimeTypeEmpty(s[1..]);
      assert AllSemicolons(s) <==> AllSemicolons(s[1..]);
    }
  }

  /** The regular expression `;charset=([^;]+)` (letters in any case) matches at p. */
  predicate CharsetMatchAt(s: string, p: nat) {
    p + 9 < |s| && ToLowerCase(s[p..p + 9]) == ";charset=" && s[p + 9] != ';'
  }

  /** The leftmost match of `;charset=([^;]+)` at or after p, giving group 1. */
  function CharsetMatchFrom(s: string, p: nat): Option<string>
    decreases |s| - p
  {
    if p + 9 >= |s| then None
    else if CharsetMatchAt(s, p) then Some(RunWithoutSemicolon(s[p + 9..]))
    else CharsetMatchFrom(s, p + 1)
  }

  /** The charset the loader reports for a Content-Type value. */
  function CharsetOf(contentType: string): string {
    match CharsetMatchFrom(contentType, 0)
    case Some(v) => ToLowerCase(v)
    case None => ""
  }

  lemma {:induction false} CharsetMatchFromFirst(s: string, p: nat, q: nat)
    requires p <= q && CharsetMatchAt(s, q)
    requires forall k :: p <= k < q ==> !CharsetMatchAt(s, k)
    ensures CharsetMatchFrom(s, p) == Some(RunWithoutSemicolon(s[q + 9..]))
    decreases q - p
  {
    if p < q {
      CharsetMatchFromFirst(s, p + 1, q);
    }
  }

  lemma {:induction false} CharsetMatchFromNone(s: string, p: nat)
    requires forall k :: p <= k < |s| ==> !CharsetMatchAt(s, k)
    ensures CharsetMatchFrom(s, p) == None
    decreases |s| - p
  {
    if p + 9 < |s| {
      CharsetMatchFromNone(s, p + 1);
    }
  }

  /**
   * The charset comes from the first `;charset=` (letters in any case, no space
   * after the ';') that is followed by a character other than ';': its value
   * runs to the next ';' or the end and is lower-cased.
   */
  lemma CharsetDecomposition(pre: string, tag: string, v: string, rest: string)
    requires |tag| == 9 && ToLowerCase(tag) == ";charset="
    requires v != [] && NoSemicolon(v) && (rest == [] || rest[0] == ';')
    requires forall p :: 0 <= p < |pre| ==> !CharsetMatchAt(pre + tag + v + rest, p)
    ensures CharsetOf(pre + tag + v + rest) == ToLowerCase(v)
  {
    var s := pre + tag + v + rest;
    var q := |pre|;
    assert s[q..q + 9] == tag;
    assert s[q + 9] == v[0];
    assert CharsetMatchAt(s, q);
    assert s[q + 9..] == v + rest;
    RunOfDecomposition(v, rest);
    CharsetMatchFromFirst(s, 0, q);
  }

  /** The charset is empty exactly when no `;charset=` is followed by a character other than ';'. */
  lemma CharsetEmpty(s: string)
    ensures CharsetOf(s) == "" <==> forall p :: 0 <= p < |s| ==> !CharsetMatchAt(s, p)
  {
    if forall p :: 0 <= p < |s| ==> !CharsetMatchAt(s, p) {
      CharsetMatchFromNone(s, 0);
    } else {
      var p0 :| 0 <= p0 < |s| && CharsetMatchAt(s, p0);
      var q := FirstCharsetMatch(s, 0, p0);
      CharsetMatchFromFirst(s, 0, q);
      assert s[q + 9..][0] != ';';
    }
  }

  /** The least match position at or after p, given that one exists at or before p0. */
  lemma {:induction false} FirstCharsetMatch(s: string, p: nat, p0: nat) returns (q: nat)
    requires p <= p0 && CharsetMatchAt(s, p0)
    ensures p <= q <= p0 && CharsetMatchAt(s, q)
    ensures forall k :: p <= k < q ==> !CharsetMatchAt(s, k)
    decreases p0 - p
  {
    if CharsetMatchAt(s, p) {
      q := p;
    } else {
      q := FirstCharsetMatch(s, p + 1, p0);
    }
  }

  /** The usual form with a space after the ';' ("text/css; charset=utf-8") gives no charset. */
  lemma CharsetSpaceAfterSemicolon(m: string, v: string)
    requires NoSemicolon(m) && NoSemicolon(v)
    ensures CharsetOf(m + "; charset=" + v) == ""
  {
    var s := m + "; charset=" + v;
    forall p | 0 <= p < |s| ensures !CharsetMatchAt(s, p) {
      if p + 9 < |s| {
        var t := ToLowerCase(s[p..p + 9]);
        assert t[0] == LowerChar(s[p]) && t[1] == LowerChar(s[p + 1]);
        if p < |m| {
          assert s[p] == m[p];
        } else if p > |m| {
          assert s[p] == ("; charset=" + v)[p - |m|];
        } else {
          assert s[p + 1] == ' ';
        }
      }
    }
    CharsetEmpty(s);
  }

  /** The MIME allow-list: style sheets, icons, images, audio and video. */
  predicate AllowedMimeType(m: string) {
    m == "text/css" || m == "image/vnd.microsoft.icon" ||
    Substr0(m, 6) == "image/" || Substr0(m, 6) == "audio/" || Substr0(m, 6) == "video/"
  }

  /** Allowed are exactly text/css and the image/, audio/ and video/ families; the icon type is one of the images. */
  lemma AllowedMimeTypes(m: string)
    ensures AllowedMimeType(m) <==> m == "text/css" || "image/" <= m || "audio/" <= m || "video/" <= m
  {
    Substr0Prefix(m, "image/");
    Substr0Prefix(m, "audio/");
    Substr0Prefix(m, "video/");
    if m == "image/vnd.microsoft.icon" {
      assert m[..6] == "image/";
    }
  }

  // ---------------------------------------------------------------------------
  // Size limit

  /** `+response.headers.get("Content-Length")`: an absent header is `+null`, that is 0. */
  function ContentLengthNumber(header: Option<JsNumber>): JsNumber {
    header.GetOr(Finite(0.0))
  }

  /** `contentLength > maxResourceSize*1024*1024`, the limit given in megabytes. */
  predicate ExceedsSizeLimit(header: Option<JsNumber>, maxResourceSize: nat) {
    GreaterThan(ContentLengthNumber(header), (maxResourceSize * 1024 * 1024) as real)
  }

  /**
   * A declared length exactly at the limit passes and one byte more fails; an
   * absent or non-numeric Content-Length never reaches the limit.
   */
  lemma SizeLimitBoundary(maxResourceSize: nat)
    ensures !ExceedsSizeLimit(Some(Finite((maxResourceSize * 1024 * 1024) as real)), maxResourceSize)
    ensures ExceedsSizeLimit(Some(Finite((maxResourceSize * 1024 * 1024 + 1) as real)), maxResourceSize)
    ensures !ExceedsSizeLimit(None, maxResourceSize)
    ensures !ExceedsSizeLimit(Some(NaN), maxResourceSize)
  {
  }

  // ---------------------------------------------------------------------------
  // Binary string

  /** The string whose i-th char code is the i-th byte (`String.fromCharCode` per byte). */
  function BinaryStringOf(bytes: seq<byte>): (s: string)
    ensures |s| == |bytes|
  {
    seq(|bytes|, i requires 0 <= i < |bytes| => bytes[i] as char)
  }

  /** The bytes that a binary string holds, one per char code. */
  function BytesOf(s: string): (bytes: seq<byte>)
    requires forall i :: 0 <= i < |s| ==> s[i] as int < 256
    ensures |bytes| == |s|
  {
    seq(|s|, i requires 0 <= i < |s| => s[i] as int)
  }

  /** The binary string holds the bytes exactly: converting back recovers them, and every char code is below 256. */
  lemma BinaryStringRoundTrip(bytes: seq<byte>)
    ensures forall i :: 0 <= i < |bytes| ==> BinaryStringOf(bytes)[i] as int == bytes[i]
    ensures BytesOf(BinaryStringOf(bytes)) == bytes
  {
  }

  /** The loop of the loader that builds the binary string one char per byte. */
  method BinaryString(bytes: seq<byte>) returns (s: string)
    ensures s == BinaryStringOf(bytes)
  {
    s := "";
    var i := 0;
    while i < |bytes|
      invariant 0 <= i <= |bytes|
      invariant |s| == i
      invariant forall k :: 0 <= k < i ==> s[k] == bytes[k] as char
    {
      s := s + [bytes[i] as char];
      i := i + 1;
    }
  }

  // ---------------------------------------------------------------------------
  // The loader

  /** The reply of `loadResource` for the request with this index, given how the fetch ended. */
  function ResourceOutcome(index: int, fetched: FetchOutcome, maxResourceSize: nat): (m: Message)
    ensures m.index == index
  {
    match fetched
    case Aborted => LoadFailure(index, ReasonText(MaxTime))
    case FetchError => LoadFailure(index, ReasonText(FetchErr))
    case Response(status, contentType, contentLength, body) =>
      if status != 200 then LoadFailure(index, ReasonText(LoadStatus(status)))
      else if ExceedsSizeLimit(contentLength, maxResourceSize) then LoadFailure(index, ReasonText(MaxSize))
      else
        var header := contentType.GetOr("");
        var mimetype := MimeTypeOf(header);
        var charset := CharsetOf(header);
        if !AllowedMimeType(mimetype) then LoadFailure(index, ReasonText(Blocked))
        else match body
          case BodyError => LoadFailure(index, ReasonText(FetchErr))
          case BodyBytes(bytes) => LoadSuccess(index, SuccessReason, BinaryStringOf(bytes), mimetype, charset)
  }

  /** `loadResource` step by step, as the background script runs it. */
  method LoadResource(index: int, fetched: FetchOutcome, maxResourceSize: nat) returns (m: Message)
    ensures m == ResourceOutcome(index, fetched, maxResourceSize)
  {
    match fetched {
      case Aborted =>
        m := LoadFailure(index, ReasonText(MaxTime));
      case FetchError =>
        m := LoadFailure(index, ReasonText(FetchErr));
      case Response(status, contentType, contentLength, body) =>
        if status == 200 {
          var header := contentType.GetOr("");
          if ExceedsSizeLimit(contentLength, maxResourceSize) {
            m := LoadFailure(index, ReasonText(MaxSize));
          } else {
            var mimetype := MimeTypeOf(header);
            var charset := CharsetOf(header);
            if !AllowedMimeType(mimetype) {
              m := LoadFailure(index, ReasonText(Blocked));
            } else {
              match body {
                case BodyError =>
                  m := LoadFailure(index, ReasonText(FetchErr));
                case BodyBytes(bytes) =>
                  var binaryString := BinaryString(bytes);
                  m := LoadSuccess(index, SuccessReason, binaryString, mimetype, charset);
              }
            }
          }
        } else {
          m := LoadFailure(index, ReasonText(LoadStatus(status)));
        }
    }
  }

  /** A failure reply whose reason reads back as r. */
  predicate FailsWith(m: Message, r: FailureReason) {
    m.LoadFailure? && ParseReason(m.reason) == Some(r)
  }

  /** Every reply is a success with reason "*" or a failure whose reason is one of the loader's reasons. */
  lemma OutcomeReasons(index: int, fetched: FetchOutcome, maxResourceSize: nat)
    ensures var m := ResourceOutcome(index, fetched, maxResourceSize);
      (m.LoadSuccess? && m.reason == SuccessReason) ||
      (exists r :: FailsWith(m, r) && r != Ignored)
  {
    var m := ResourceOutcome(index, fetched, maxResourceSize);
    if m.LoadFailure? {
      var r :| m.reason == ReasonText(r) && r != Ignored;
      ReasonRoundTrip(r);
      assert FailsWith(m, r);
    }
  }

  /** Transport failures: an aborted fetch is a time-limit failure, any other rejection a fetch error, a non-200 status carries the status. */
  lemma TransportFailures(index: int, fetched: FetchOutcome, maxResourceSize: nat)
    ensures fetched.Aborted? ==> FailsWith(ResourceOutcome(index, fetched, maxResourceSize), MaxTime)
    ensures fetched.FetchError? ==> FailsWith(ResourceOutcome(index, fetched, maxResourceSize), FetchErr)
    ensures fetched.Response? && fetched.status != 200 ==>
      FailsWith(ResourceOutcome(index, fetched, maxResourceSize), LoadStatus(fetched.status))
  {
    ReasonRoundTrip(MaxTime);
    ReasonRoundTrip(FetchErr);
    if fetched.Response? {
      ReasonRoundTrip(LoadStatus(fetched.status));
    }
  }

  /** For a 200 response the size limit is checked first: maxsize exactly when the declared length exceeds it, whatever the type. */
  lemma SizeLimitRule(index: int, contentType: Option<string>, contentLength: Option<JsNumber>, body: Body, maxResourceSize: nat)
    ensures FailsWith(ResourceOutcome(index, Response(200, contentType, contentLength, body), maxResourceSize), MaxSize)
        <==> ExceedsSizeLimit(contentLength, maxResourceSize)
  {
    ReasonRoundTrip(MaxSize);
    ReasonRoundTrip(Blocked);
    ReasonRoundTrip(FetchErr);
  }

  /** Within the size limit, a 200 response is blocked exactly when its mimetype is off the allow-list, whatever its body. */
  lemma BlockedRule(index: int, contentType: Option<string>, contentLength: Option<JsNumber>, body: Body, maxResourceSize: nat)
    requires !ExceedsSizeLimit(contentLength, maxResourceSize)
    ensures FailsWith(ResourceOutcome(index, Response(200, contentType, contentLength, body), maxResourceSize), Blocked)
        <==> !AllowedMimeType(MimeTypeOf(contentType.GetOr("")))
  {
    ReasonRoundTrip(Blocked);
    ReasonRoundTrip(FetchErr);
  }

  /**
   * Success exactly for a 200 response within the limit, of an allowed type,
   * whose body was read; the content then has one char per byte with that
   * byte as its code, and carries the parsed mimetype and charset.
   */
  lemma SuccessPayload(index: int, fetched: FetchOutcome, maxResourceSize: nat)
    ensures var m := ResourceOutcome(index, fetched, maxResourceSize);
      m.LoadSuccess? <==>
        fetched.Response? && fetched.status == 200 && !ExceedsSizeLimit(fetched.contentLength, maxResourceSize) &&
        AllowedMimeType(MimeTypeOf(fetched.contentType.GetOr(""))) && fetched.body.BodyBytes?
    ensures var m := ResourceOutcome(index, fetched, maxResourceSize);
      m.LoadSuccess? ==>
        m.reason == SuccessReason &&
        |m.content| == |fetched.body.bytes| &&
        (forall i :: 0 <= i < |m.content| ==> m.content[i] as int == fetched.body.bytes[i]) &&
        m.mimetype == MimeTypeOf(fetched.contentType.GetOr("")) &&
        m.charset == CharsetOf(fetched.contentType.GetOr(""))
  {
    if fetched.Response? && fetched.body.BodyBytes? {
      BinaryStringRoundTrip(fetched.body.bytes);
    }
  }

  // ---------------------------------------------------------------------------
  // The "loadResource" message

  /** The sender of a runtime message (`runtime.MessageSender`); `origin` is absent on Firefox. */
  datatype Sender = Sender(extensionId: string, frameId: int, url: string, origin: Option<string>)

  /** The sender's tab as `chrome.tabs.get` reports it; `origin` is `new URL(url).origin`, None when that constructor throws. */
  datatype SenderTab = SenderTab(url: string, origin: Option<string>)

  /**
   * The sender check, evaluated left to right with short-circuit: Some(verdict),
   * or None when evaluating it throws (the tab is gone, or its URL does not parse).
   */
  function VerifySender(sender: Sender, runtimeId: string, isFirefox: bool, tab: Option<SenderTab>): Option<bool> {
    if sender.extensionId != runtimeId || sender.frameId != 0 then Some(false)
    else if tab.None? then None
    else if sender.url != tab.value.url then Some(false)
    else if isFirefox then Some(true)
    else if tab.value.origin.None? then None
    else Some(sender.origin == tab.value.origin)
  }

  /** The messages sent to the sender's tab in answer to one "loadResource" message. */
  function LoadResourceReplies(sender: Sender, runtimeId: string, isFirefox: bool, tab: Option<SenderTab>,
                               index: int, fetched: FetchOutcome, maxResourceSize: nat): (replies: seq<Message>)
    ensures |replies| <= 1
    ensures forall m :: m in replies ==> m.index == index
  {
    match VerifySender(sender, runtimeId, isFirefox, tab)
    case None => []
    case Some(true) => [ResourceOutcome(index, fetched, maxResourceSize)]
    case Some(false) => [LoadFailure(index, ReasonText(Ignored))]
  }

  /**
   * Exactly one reply per request unless the check itself throws; the reply is
   * "ignored*" exactly when the sender is not the extension's own top frame on
   * the tab's URL and (outside Firefox) the tab's origin.
   */
  lemma OneReplyPerRequest(sender: Sender, runtimeId: string, isFirefox: bool, tab: Option<SenderTab>,
                           index: int, fetched: FetchOutcome, maxResourceSize: nat)
    ensures var replies := LoadResourceReplies(sender, runtimeId, isFirefox, tab, index, fetched, maxResourceSize);
      (|replies| == 1 <==> VerifySender(sender, runtimeId, isFirefox, tab).Some?) &&
      (|replies| == 1 ==>
        replies[0].index == index &&
        (FailsWith(replies[0], Ignored) <==>
          !(sender.extensionId == runtimeId && sender.frameId == 0 && tab.Some? && sender.url == tab.value.url &&
            (isFirefox || (tab.value.origin.Some? && sender.origin == tab.value.origin)))))
  {
    ReasonRoundTrip(Ignored);
    OutcomeReasons(index, fetched, maxResourceSize);
  }
}
