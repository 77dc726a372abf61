/**
 * controllers/page_controller.js: root-relative links load the target page
 * in place. A click pushes a history entry, the page is fetched, and when
 * the answer is still current its title and output replace the current
 * entry's.
 *
 * The History API is the Browser class below (a stack of entries with a
 * current index, push, replace, traverse and read); `fetch` and `DOMParser`
 * become a Response value carrying the parsed document; the asynchronous
 * `loadPage` is split into LoadStart, which captures the history state,
 * LoadHeaders, which compares it with the state when the headers arrive,
 * and LoadBody, which parses and replaces once the body has been read.
 */
module Page {
  import opened Wrappers

  /**
   * A state object written by pushState/replaceState. `stamp` is the
   * object's identity: every write makes a new object, and `!==` compares
   * identities, not contents.
   */
  datatype PageState = PageState(path: string, title: string, stamp: nat)

  /** A session-history entry: its URL path and its state (None: `null`). */
  datatype Entry = Entry(url: string, state: Option<PageState>)

  predicate StampedBefore(e: Entry, bound: nat) {
    e.state.Some? ==> e.state.value.stamp < bound
  }

  /** A token captured before `bound` state objects had been written. */
  predicate TokenBefore(token: Option<PageState>, bound: nat) {
    token.Some? ==> token.value.stamp < bound
  }

  /** `window.history`, `window.location.pathname` and `document.title`. */
  class Browser {
    var entries: seq<Entry>
    var index: nat
    var title: string
    /** How many state objects have been written so far. */
    var stamps: nat

    ghost predicate Valid()
      reads this
    {
      index < |entries| && forall k :: 0 <= k < |entries| ==> StampedBefore(entries[k], stamps)
    }

    /** `history.state`. */
    function State(): (s: Option<PageState>)
      reads this
      requires Valid()
      ensures TokenBefore(s, stamps)
    {
      entries[index].state
    }

    /** `location.pathname`. */
    function Pathname(): (p: string)
      reads this
      requires Valid()
    {
      entries[index].url
    }

    /** A freshly loaded document: one entry whose state is `null`. */
    constructor (url: string, documentTitle: string)
      ensures Valid()
      ensures entries == [Entry(url, None)] && index == 0 && title == documentTitle && stamps == 0
    {
      entries := [Entry(url, None)];
      index := 0;
      title := documentTitle;
      stamps := 0;
    }

    /**
     * `history.pushState(state, title, url)`: drops the entries after the
     * current one and appends a new current entry. The title argument does
     * not change `document.title`.
     */
    method PushState(path: string, stateTitle: string, url: string)
      requires Valid()
      modifies this
      ensures Valid()
      ensures entries == old(entries[..index + 1]) + [Entry(url, Some(PageState(path, stateTitle, old(stamps))))]
      ensures index == old(index) + 1 && |entries| == index + 1
      ensures stamps == old(stamps) + 1 && title == old(title)
      ensures State() == Some(PageState(path, stateTitle, old(stamps)))
    {
      entries := entries[..index + 1] + [Entry(url, Some(PageState(path, stateTitle, stamps)))];
      index := index + 1;
      stamps := stamps + 1;
    }

    /** `history.replaceState(state, title, url)`: rewrites the current entry in place. */
    method ReplaceState(path: string, stateTitle: string, url: string)
      requires Valid()
      modifies this
      ensures Valid()
      ensures entries == old(entries)[old(index) := Entry(url, Some(PageState(path, stateTitle, old(stamps))))]
      ensures index == old(index) && |entries| == old(|entries|)
      ensures stamps == old(stamps) + 1 && title == old(title)
      ensures State() == Some(PageState(path, stateTitle, old(stamps)))
    {
      entries := entries[index := Entry(url, Some(PageState(path, stateTitle, stamps)))];
      stamps := stamps + 1;
    }

    /**
     * The user's Back or Forward to entry `to`. The entry becomes current,
     * and its state is restored as a new object (a structured clone), so it
     * is never the object captured earlier. A same-document traversal leaves
     * document.title alone.
     */
    method Traverse(to: nat)
      requires Valid() && to < |entries| && to != index
      modifies this
      ensures Valid()
      ensures entries == old(entries)[to := Entry(old(entries[to].url), Restored(old(entries[to].state), old(stamps)))]
      ensures index == to && stamps == old(stamps) + 1 && title == old(title)
    {
      entries := entries[to := Entry(entries[to].url, Restored(entries[to].state, stamps))];
      index := to;
      stamps := stamps + 1;
    }
  }

  /** A state object deserialized again on traversal: same contents, new identity. */
  function Restored(s: Option<PageState>, stamp: nat): (r: Option<PageState>)
    ensures r.None? <==> s.None?
    ensures r.Some? ==> r.value.path == s.value.path && r.value.title == s.value.title && r.value.stamp == stamp
  {
    if s.None? then None else Some(PageState(s.value.path, s.value.title, stamp))
  }

  /** After any write, no state captured before it is still current. */
  lemma WriteMakesTokensStale(token: Option<PageState>, oldStamps: nat, current: Option<PageState>)
    requires TokenBefore(token, oldStamps)
    requires current.Some? && current.value.stamp == oldStamps
    ensures token != current
  {
  }

  /** The parts of a click event that `navigate` reads; `href` is `getAttribute('href')`. */
  datatype ClickEvent = ClickEvent(altKey: bool, shiftKey: bool, ctrlKey: bool, metaKey: bool, href: Option<string>)

  /**
   * The link-interception guard: no modifier held, and a non-empty href
   * starting with '/'. Such an href is truthy, so the loading text that
   * navigate leads to always names it ("Loading..." is never shown).
   */
  predicate Intercepts(e: ClickEvent): (r: bool)
    ensures r ==> e.href.Some? && LoadingText(e.href.value) == "Loading " + e.href.value
  {
    !e.altKey && !e.shiftKey && !e.ctrlKey && !e.metaKey &&
    e.href.Some? && e.href.value != "" && e.href.value[0] == '/'
  }

  /**
   * "//host/x" (or "/\host/x") names a host rather than a path, so it can
   * resolve to another origin; any other href starting with '/' resolves to
   * the document's own origin.
   */
  predicate ProtocolRelative(href: string) {
    |href| >= 2 && href[0] == '/' && (href[1] == '/' || href[1] == '\\')
  }

  /** `showLoading`'s text; the empty string stands for every falsy path. */
  function LoadingText(path: string): (r: string)
    ensures |r| >= 9 && r[..7] == "Loading"
    ensures path != "" ==> r == "Loading " + path && r[8..] == path
    ensures path == "" ==> r == "Loading..."
  {
    if path != "" then "Loading " + path else "Loading..."
  }

  /** What DOMParser makes of a response body: the head title's text and the `#output` element. */
  datatype ParsedDocument = ParsedDocument(headTitle: Option<string>, output: Option<string>)

  /**
   * What DOMParser makes of `null`, which a stale fetch hands on: the text
   * "null" in an otherwise empty document, with no title and no `#output`.
   */
  const NullDocument := ParsedDocument(None, None)

  const MissingOutput := "Couldn't find output element in retrieved page"

  datatype ParsedPage = ParsedPage(title: string, output: string)

  /** `parsePage`: fails without an `#output` element; a missing title reads as ''. */
  function ParsePage(doc: ParsedDocument): (r: Result<ParsedPage, string>)
    ensures r.Success? <==> doc.output.Some?
    ensures r.Success? ==> r.value.output == doc.output.value
    ensures r.Success? ==> r.value.title == if doc.headTitle.Some? then doc.headTitle.value else ""
    ensures r.Failure? ==> r.error == MissingOutput
  {
    if doc.output.None? then
      Failure(MissingOutput)
    else
      Success(ParsedPage(if doc.headTitle.Some? then doc.headTitle.value else "", doc.output.value))
  }

  /** How `fetch` settles: rejected, or a response with its `ok` flag, status and parsed body. */
  datatype Response = NetworkError(message: string) | Response(ok: bool, status: int, body: ParsedDocument)

  /** How a load ends: the page replaced under a title, or the promise chain rejected. */
  datatype Completion = Replaced(title: string) | Rejected(reason: string)

  /** A load in flight: its path, the history state captured at its start, and the loading text. */
  datatype Pending = Pending(path: string, token: Option<PageState>, loadingText: string)

  /** How the first `then` of `loadPage` settles: with the document `parsePage` will get, or rejected. */
  datatype Fetched = Text(doc: ParsedDocument) | Failed(reason: string)

  /**
   * The first `then`, run when the response headers arrive with the history
   * state `current` at that moment: rejects a response that is not ok, and
   * hands the null document on when the state is no longer the captured one.
   */
  function AtHeaders(path: string, token: Option<PageState>, current: Option<PageState>, res: Response): (f: Fetched)
    ensures f.Failed? <==> res.NetworkError? || !res.ok
    ensures res.NetworkError? ==> f == Failed(res.message)
    ensures res.Response? && !res.ok ==> f == Failed("Couldn't retrieve " + path)
    ensures res.Response? && res.ok && token == current ==> f == Text(res.body)
    ensures res.Response? && res.ok && token != current ==> f == Text(NullDocument)
  {
    match res
    case NetworkError(message) => Failed(message)
    case Response(ok, _, body) =>
      if !ok then Failed("Couldn't retrieve " + path)
      else if token != current then Text(NullDocument)
      else Text(body)
  }

  /**
   * The remaining `then`s, once the body has been read: parse, then replace.
   * Nothing here looks at the history state again.
   */
  function AtBody(f: Fetched): (c: Completion)
    ensures c.Replaced? <==> f.Text? && f.doc.output.Some?
    ensures c.Replaced? ==> c.title == ParsePage(f.doc).value.title
    ensures f.Failed? ==> c == Rejected(f.reason)
  {
    match f
    case Failed(reason) => Rejected(reason)
    case Text(doc) =>
      match ParsePage(doc)
      case Failure(e) => Rejected(e)
      case Success(page) => Replaced(page.title)
  }

  /** The whole promise chain of `loadPage` when the history state is `current` at both steps. */
  function Complete(path: string, token: Option<PageState>, current: Option<PageState>, res: Response): (c: Completion)
    ensures c.Replaced? <==> res.Response? && res.ok && token == current && res.body.output.Some?
    ensures c.Replaced? ==> c.title == ParsePage(res.body).value.title
    ensures res.Response? && !res.ok ==> c == Rejected("Couldn't retrieve " + path)
    ensures res.Response? && res.ok && token != current ==> c == Rejected(MissingOutput)
  {
    AtBody(AtHeaders(path, token, current, res))
  }

  /** `ensureState`: gives a `null` state a value, by replacing, never by pushing. */
  method EnsureState(b: Browser)
    requires b.Valid()
    modifies b
    ensures b.Valid()
    ensures old(b.State()).None? ==>
      && b.entries == old(b.entries)[old(b.index) := Entry(old(b.Pathname()), Some(PageState(old(b.Pathname()), old(b.title), old(b.stamps))))]
      && b.index == old(b.index) && b.stamps == old(b.stamps) + 1 && b.title == old(b.title)
    ensures old(b.State()).Some? ==> unchanged(b)
    ensures |b.entries| == old(|b.entries|)
  {
    if b.State().None? {
      var path := b.Pathname();
      var title := b.title;
      b.ReplaceState(path, title, path);
    }
  }

  /** `connect`. */
  method Connect(b: Browser)
    requires b.Valid()
    modifies b
    ensures b.Valid() && b.State().Some? && |b.entries| == old(|b.entries|)
    ensures old(b.State()).Some? ==> unchanged(b)
  {
    EnsureState(b);
  }

  /** `replacePage`: sets the document title and rewrites the current entry; no entry is added. */
  method ReplacePage(b: Browser, path: string, title: string)
    requires b.Valid()
    modifies b
    ensures b.Valid()
    ensures b.title == title
    ensures b.entries == old(b.entries)[old(b.index) := Entry(path, Some(PageState(path, title, old(b.stamps))))]
    ensures b.index == old(b.index) && b.stamps == old(b.stamps) + 1
  {
    b.title := title;
    b.ReplaceState(path, title, path);
  }

  /** The synchronous start of `loadPage`: captures the current state and computes the loading text. */
  method LoadStart(b: Browser, path: string) returns (p: Pending)
    requires b.Valid()
    ensures p.path == path && p.token == b.State() && p.loadingText == LoadingText(path)
    ensures TokenBefore(p.token, b.stamps)
  {
    var currentState := b.State();
    p := Pending(path, currentState, LoadingText(path));
  }

  /**
   * `res => ...` in `loadPage`, run when the response headers arrive: it
   * compares the captured state with the state at that moment.
   */
  method LoadHeaders(b: Browser, p: Pending, res: Response) returns (f: Fetched)
    requires b.Valid()
    ensures f == AtHeaders(p.path, p.token, b.State(), res)
  {
    match res
    case NetworkError(message) =>
      f := Failed(message);
    case Response(ok, _, body) =>
      if !ok {
        return Failed("Couldn't retrieve " + p.path);
      }
      if p.token != b.State() {
        return Text(NullDocument);
      }
      f := Text(body);
  }

  /**
   * The rest of `loadPage` once the body has been read: parse, and replace
   * the current entry whatever it is now. A rejection (network error, not
   * ok, stale, no `#output`) leaves title and history as they were.
   */
  method LoadBody(b: Browser, p: Pending, f: Fetched) returns (c: Completion)
    requires b.Valid()
    modifies b
    ensures b.Valid()
    ensures c == AtBody(f)
    ensures c.Replaced? ==>
      && b.title == c.title
      && b.entries == old(b.entries)[old(b.index) := Entry(p.path, Some(PageState(p.path, c.title, old(b.stamps))))]
      && b.index == old(b.index) && b.stamps == old(b.stamps) + 1
    ensures c.Rejected? ==> unchanged(b)
  {
    if f.Failed? {
      return Rejected(f.reason);
    }
    var parsed := ParsePage(f.doc);
    if parsed.Failure? {
      return Rejected(parsed.error);
    }
    ReplacePage(b, p.path, parsed.value.title);
    c := Replaced(parsed.value.title);
  }

  /** A load whose headers and body arrive with no history change in between. */
  method LoadComplete(b: Browser, p: Pending, res: Response) returns (c: Completion)
    requires b.Valid()
    modifies b
    ensures b.Valid()
    ensures c == Complete(p.path, p.token, old(b.State()), res)
    ensures c.Replaced? ==>
      && b.title == c.title
      && b.entries == old(b.entries)[old(b.index) := Entry(p.path, Some(PageState(p.path, c.title, old(b.stamps))))]
      && b.index == old(b.index) && b.stamps == old(b.stamps) + 1
    ensures c.Rejected? ==> unchanged(b)
  {
    var f := LoadHeaders(b, p, res);
    c := LoadBody(b, p, f);
  }

  /**
   * `navigate`: for an intercepted link, pushes one entry whose state is the
   * href and "Loading <href>", then starts loading that href; otherwise
   * touches nothing. Returns whether `preventDefault` was called.
   * `sameOrigin` says whether the href resolves to the document's origin;
   * when it does not, `pushState` throws a SecurityError after
   * `preventDefault`, so the click is swallowed and nothing is pushed or
   * loaded.
   */
  method Navigate(b: Browser, e: ClickEvent, sameOrigin: bool) returns (prevented: bool, started: Option<Pending>)
    requires b.Valid()
    requires Intercepts(e) && !ProtocolRelative(e.href.value) ==> sameOrigin
    modifies b
    ensures b.Valid()
    ensures prevented <==> Intercepts(e)
    ensures !(prevented && sameOrigin) ==> unchanged(b) && started.None?
    ensures prevented && sameOrigin ==>
      var href := e.href.value;
      && b.entries == old(b.entries[..b.index + 1]) + [Entry(href, Some(PageState(href, "Loading " + href, old(b.stamps))))]
      && b.index == old(b.index) + 1 && b.stamps == old(b.stamps) + 1
      && b.title == old(b.title)
      && started == Some(Pending(href, b.State(), LoadingText(href)))
  {
    prevented, started := false, None;
    if !e.altKey && !e.shiftKey && !e.ctrlKey && !e.metaKey {
      if e.href.Some? && e.href.value != "" && e.href.value[0] == '/' {
        var href := e.href.value;
        prevented := true;
        if !sameOrigin {
          return;
        }
        var title := "Loading " + href;
        b.PushState(href, title, href);
        var p := LoadStart(b, href);
        started := Some(p);
      }
    }
  }

  /**
   * Two navigations in a row, both made before the first response's headers
   * arrive, the first answered last: the first load's token is stale and its
   * response is discarded whatever it holds; the second applies exactly when
   * its response is ok and has `#output`.
   */
  method SupersededNavigation(b: Browser, first: ClickEvent, second: ClickEvent, late: Response, early: Response)
    returns (lateResult: Completion, earlyResult: Completion)
    requires b.Valid() && Intercepts(first) && Intercepts(second)
    requires !ProtocolRelative(first.href.value) && !ProtocolRelative(second.href.value)
    modifies b
    ensures b.Valid()
    ensures lateResult.Rejected?
    ensures earlyResult.Replaced? <==> early.Response? && early.ok && early.body.output.Some?
    ensures b.title == if earlyResult.Replaced? then earlyResult.title else old(b.title)
  {
    var _, p1 := Navigate(b, first, true);
    var _, p2 := Navigate(b, second, true);
    WriteMakesTokensStale(p1.value.token, b.stamps - 1, b.State());
    earlyResult := LoadComplete(b, p2.value, early);
    if earlyResult.Replaced? {
      WriteMakesTokensStale(p1.value.token, b.stamps - 1, b.State());
    }
    lateResult := LoadComplete(b, p1.value, late);
  }

  /**
   * A second click while the first page's body is still downloading: the
   * first load passed its staleness test at header time, so its
   * `replacePage` rewrites the entry the second click pushed with the first
   * path, and the second load, now stale, is discarded. The history then
   * holds the first path twice and the second click is lost.
   */
  method NavigationDuringBody(b: Browser, first: ClickEvent, second: ClickEvent, res: Response, later: Response)
    returns (firstResult: Completion, secondResult: Completion)
    requires b.Valid() && Intercepts(first) && Intercepts(second)
    requires !ProtocolRelative(first.href.value) && !ProtocolRelative(second.href.value)
    requires res.Response? && res.ok && res.body.output.Some?
    modifies b
    ensures b.Valid()
    ensures firstResult.Replaced? && secondResult.Rejected?
    ensures b.index == old(b.index) + 2 && |b.entries| == b.index + 1
    ensures b.entries[b.index - 1].url == first.href.value && b.Pathname() == first.href.value
    ensures b.State().Some? && b.State().value.path == first.href.value
  {
    var _, p1 := Navigate(b, first, true);
    var f := LoadHeaders(b, p1.value, res);
    var _, p2 := Navigate(b, second, true);
    assert b.entries[b.index - 1].url == first.href.value;
    firstResult := LoadBody(b, p1.value, f);
    WriteMakesTokensStale(p2.value.token, b.stamps - 1, b.State());
    secondResult := LoadComplete(b, p2.value, later);
  }

  /**
   * Back pressed while a load is pending: the restored state is a new
   * object, so the load is discarded; the entry left behind stays reachable
   * by Forward.
   */
  method BackDuringLoad(b: Browser, e: ClickEvent, res: Response) returns (result: Completion)
    requires b.Valid() && Intercepts(e) && !ProtocolRelative(e.href.value)
    modifies b
    ensures b.Valid()
    ensures result.Rejected?
    ensures b.index == old(b.index) && b.title == old(b.title)
    ensures |b.entries| == old(b.index) + 2 && b.entries[b.index + 1].url == e.href.value
  {
    var _, p := Navigate(b, e, true);
    b.Traverse(b.index - 1);
    result := LoadComplete(b, p.value, res);
  }
}
