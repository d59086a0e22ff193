/** The per-browser client (CEFCryHandler): it owns the render and input
    handlers, tracks the main frame of the first browser that reports a
    devtools URL, and answers the browser's popup, dialog and context-menu
    questions with fixed policies. */
module BrowserHandler {
  import opened Engine
  import RenderBridge
  import InputBridge

  datatype Frame = Frame(browserId: int)

  /** What the handler reads of a browser: its identifier and the devtools
      URL its host reports. Its main frame belongs to it. */
  datatype Browser = Browser(id: int, devToolsUrl: string)

  function MainFrame(b: Browser): (f: Frame)
    ensures f.browserId == b.id
  {
    Frame(b.id)
  }

  /** The plugin's tracked frame and devtools URL. */
  datatype Tracking = Tracking(frame: Option<Frame>, devToolsUrl: string)

  const UNTRACKED: Tracking := Tracking(None, "")

  /** A recorded devtools URL always comes with a tracked frame. */
  predicate Consistent(t: Tracking) {
    t.devToolsUrl != "" ==> t.frame.Some?
  }

  /** OnAfterCreated: a new browser is tracked only while no devtools URL is
      recorded. */
  function AfterCreated(t: Tracking, b: Browser): (r: Tracking)
    ensures t.devToolsUrl == "" ==> r.frame == Some(MainFrame(b)) && r.devToolsUrl == b.devToolsUrl
    ensures t.devToolsUrl != "" ==> r == t
    ensures Consistent(t) ==> Consistent(r)
  {
    if t.devToolsUrl == "" then Tracking(Some(MainFrame(b)), b.devToolsUrl) else t
  }

  /** Whether a closing browser is the tracked one (or nothing is tracked). */
  predicate ClosesTracked(t: Tracking, b: Browser) {
    t.frame.None? || t.frame.value.browserId == b.id
  }

  /** OnBeforeClose: forget the frame and URL when the tracked browser (or
      any browser, with nothing tracked) closes. */
  function BeforeClose(t: Tracking, b: Browser): (r: Tracking)
    ensures ClosesTracked(t, b) ==> r == UNTRACKED
    ensures !ClosesTracked(t, b) ==> r == t
    ensures Consistent(t) ==> Consistent(r)
  {
    if ClosesTracked(t, b) then UNTRACKED else t
  }

  /** The tracking after a sequence of browser creations. */
  function CreatedAll(t: Tracking, bs: seq<Browser>): Tracking
    decreases |bs|
  {
    if bs == [] then t else CreatedAll(AfterCreated(t, bs[0]), bs[1..])
  }

  /** Once a devtools URL is recorded, no later creation changes the
      tracking. */
  lemma {:induction false} RecordedTrackingIsKept(t: Tracking, bs: seq<Browser>)
    requires t.devToolsUrl != ""
    ensures CreatedAll(t, bs) == t
    decreases |bs|
  {
    if bs != [] {
      RecordedTrackingIsKept(AfterCreated(t, bs[0]), bs[1..]);
    }
  }

  /** The first browser created with a devtools URL stays tracked through
      any number of later creations. */
  lemma FirstBrowserWins(b: Browser, later: seq<Browser>)
    requires b.devToolsUrl != ""
    ensures CreatedAll(UNTRACKED, [b] + later) == Tracking(Some(MainFrame(b)), b.devToolsUrl)
  {
    assert ([b] + later)[1..] == later;
    RecordedTrackingIsKept(AfterCreated(UNTRACKED, b), later);
  }

  /** A browser whose host reports no devtools URL leaves the next browser
      free to replace it. */
  lemma EmptyUrlIsReplaced(b1: Browser, b2: Browser)
    requires b1.devToolsUrl == ""
    ensures CreatedAll(UNTRACKED, [b1, b2]).frame == Some(MainFrame(b2))
  {
    var t1 := AfterCreated(UNTRACKED, b1);
    assert [b1, b2][1..] == [b2] && [b2][1..] == [];
    assert CreatedAll(UNTRACKED, [b1, b2]) == CreatedAll(t1, [b2]);
    assert CreatedAll(t1, [b2]) == CreatedAll(AfterCreated(t1, b2), []);
  }

  /** Closing the tracked browser forgets it; closing another one does not. */
  lemma CloseOnlyForgetsTracked(b: Browser, other: Browser)
    requires other.id != b.id
    ensures BeforeClose(AfterCreated(UNTRACKED, b), b) == UNTRACKED
    ensures BeforeClose(AfterCreated(UNTRACKED, b), other) == AfterCreated(UNTRACKED, b)
  {
  }

  /** gPlugin's m_refCEFFrame and m_sCEFDebugURL, with the devtools launch
      requests ShowDevTools makes. */
  class BrowserContext {
    var frame: Option<Frame>
    var devToolsUrl: string
    var launches: seq<string>

    function Tracked(): Tracking
      reads this
    {
      Tracking(frame, devToolsUrl)
    }

    constructor ()
      ensures Tracked() == UNTRACKED && launches == []
    {
      frame, devToolsUrl, launches := None, "", [];
    }

    /** ShowDevTools: ask for the devtools page when its URL is known. */
    method ShowDevTools()
      modifies this`launches
      ensures launches == old(launches) + if devToolsUrl != "" then [devToolsUrl] else []
    {
      if devToolsUrl != "" {
        launches := launches + [devToolsUrl];
      }
    }
  }

  class CefHandler {
    const renderHandler: RenderBridge.RenderHandler
    const input: InputBridge.InputHandler

    constructor (windowWidth: int, windowHeight: int)
      ensures fresh(renderHandler) && fresh(input)
      ensures renderHandler.width == windowWidth && renderHandler.height == windowHeight
      ensures renderHandler.Valid() && renderHandler.dirty == RenderBridge.EMPTY_BOUNDS
      ensures renderHandler.buffer == None && !renderHandler.texture && !renderHandler.view
      ensures input.queue == [] && input.mode == 0 && input.exclusive
      ensures input.ButtonState() == InputBridge.NO_BUTTONS
    {
      renderHandler := new RenderBridge.RenderHandler(windowWidth, windowHeight);
      input := new InputBridge.InputHandler();
    }

    method OnAfterCreated(ctx: BrowserContext, browser: Browser)
      modifies ctx
      ensures ctx.Tracked() == AfterCreated(old(ctx.Tracked()), browser)
      ensures ctx.launches == old(ctx.launches)
        + if old(ctx.devToolsUrl) == "" && browser.devToolsUrl != "" then [browser.devToolsUrl] else []
    {
      if ctx.devToolsUrl == "" {
        ctx.frame := Some(MainFrame(browser));
        ctx.devToolsUrl := browser.devToolsUrl;
        ctx.ShowDevTools();
      }
    }

    method OnBeforeClose(ctx: BrowserContext, browser: Browser)
      modifies ctx`frame, ctx`devToolsUrl
      ensures ctx.Tracked() == BeforeClose(old(ctx.Tracked()), browser)
    {
      if ctx.frame.None? || ctx.frame.value.browserId == browser.id {
        ctx.devToolsUrl := "";
        ctx.frame := None;
      }
    }

    /** Popups are never allowed: true cancels the popup. */
    method OnBeforePopup(targetUrl: string) returns (cancel: bool)
      ensures cancel
    {
      return true;
    }

    /** File dialogs are cancelled and reported as handled. */
    method OnFileDialog(title: string) returns (handled: bool, callbackCancelled: bool)
      ensures handled && callbackCancelled
    {
      return true, true;
    }

    /** JavaScript dialogs are suppressed without being handled. */
    method OnJSDialog(messageText: string) returns (handled: bool, suppressMessage: bool)
      ensures !handled && suppressMessage
    {
      return false, true;
    }

    /** Context menus are never shown: the menu model is emptied. */
    method OnBeforeContextMenu(model: seq<string>) returns (shown: seq<string>)
      ensures shown == []
    {
      return [];
    }
  }
}
