/** The plugin's public API (CPluginHTML5): the console commands, the
    null-guarded forwarders to the browser client, and the cursor opacity
    test against the last painted surface. */
module PluginHTML5 {
  import opened Engine
  import opened CryString
  import RenderBridge
  import InputBridge
  import opened BrowserHandler

  /** Defaults of the console variables cm5_active and cm5_alphatest. */
  const DEFAULT_ACTIVE: real := 1.0
  const DEFAULT_ALPHA_TEST: real := 0.3

  /** SetInputMode's default for bExclusive. */
  const DEFAULT_EXCLUSIVE: bool := false

  /** The surface size of the browser client the plugin creates. */
  const SURFACE_SIZE: int := 1024

  /** The script URL and first line ExecuteJS reports. */
  const SCRIPT_URL: string := "CryHTML"
  const SCRIPT_LINE: int := 0

  /** What the plugin asks of the tracked main frame. */
  datatype FrameCall =
    | LoadUrl(frame: Frame, url: string)
    | ExecuteJavaScript(frame: Frame, code: string, scriptUrl: string, startLine: int)

  // ---------------------------------------------------------------- console commands

  /** The text a cm5_url or cm5_js command acts on: the command line after
      its first space, trimmed. With no space, npos + 1 wraps to 0 and the
      whole line is taken. */
  function CommandText(cmdline: string): (r: string)
    ensures ' ' in cmdline && |cmdline| < NPOS ==> r == Trim(cmdline[FindFirst(cmdline, ' ') + 1..])
    ensures ' ' !in cmdline && |cmdline| <= NPOS ==> r == Trim(cmdline)
    ensures r == [] || (!IsSpace(r[0]) && !IsSpace(r[|r| - 1]))
  {
    var k := FindFirst(cmdline, ' ');
    var first := SizeAdd(k, 1);
    MidToEnd(cmdline, first);
    Trim(Mid(cmdline, first, NPOS))
  }

  /** For "name argument", with no space in the name, the command acts on
      the argument, trimmed. */
  lemma CommandTextOfArgument(name: string, arg: string)
    requires ' ' !in name && |name| + 1 + |arg| < NPOS
    ensures CommandText(name + " " + arg) == Trim(arg)
  {
    var line := name + " " + arg;
    assert line[|name|] == ' ';
    assert line[..|name|] == name;
    FirstAt(line, ' ', |name|);
    assert line[|name| + 1..] == arg;
  }

  /** The argument of cm5_url and cm5_js: present when the command has more
      than one argument and the command text is not empty. */
  function CommandArgument(argCount: nat, cmdline: string): (a: Option<string>)
    ensures a.Some? <==> argCount > 1 && CommandText(cmdline) != ""
    ensures a.Some? ==> a.value == CommandText(cmdline) && !IsSpace(a.value[0])
  {
    if argCount > 1 && CommandText(cmdline) != "" then Some(CommandText(cmdline)) else None
  }

  /** cm5_url http://host/page  loads "http://host/page". */
  lemma UrlCommandExample(name: string, url: string)
    requires ' ' !in name && |name| + 1 + |url| < NPOS
    requires url != [] && !IsSpace(url[0]) && !IsSpace(url[|url| - 1])
    ensures CommandArgument(2, name + " " + url) == Some(url)
  {
    CommandTextOfArgument(name, url);
    TrimUnpadded(url);
  }

  /** A command whose argument is only white space does nothing. */
  lemma BlankArgumentIgnored(name: string, blank: string, argCount: nat)
    requires ' ' !in name && |name| + 1 + |blank| < NPOS
    requires forall i :: 0 <= i < |blank| ==> IsSpace(blank[i])
    ensures CommandArgument(argCount, name + " " + blank) == None
  {
    CommandTextOfArgument(name, blank);
    TrimIsSlice(blank);
  }

  /** cm5_input's dispatch on the argument count: the mode alone, or the
      mode and the exclusive flag; anything else is ignored. */
  function InputModeArguments(args: seq<string>, parseInt: string -> int, parseBool: string -> bool): (r: Option<(int, bool)>)
    ensures r.Some? <==> |args| == 2 || |args| == 3
    ensures |args| == 2 ==> r == Some((parseInt(args[1]), DEFAULT_EXCLUSIVE))
    ensures |args| == 3 ==> r == Some((parseInt(args[1]), parseBool(args[2])))
  {
    if |args| == 2 then Some((parseInt(args[1]), DEFAULT_EXCLUSIVE))
    else if |args| == 3 then Some((parseInt(args[1]), parseBool(args[2])))
    else None
  }

  // ---------------------------------------------------------------- the plugin

  class Plugin {
    var active: real
    var alphaTest: real
    var handler: CefHandler?
    const context: BrowserContext
    var frameCalls: seq<FrameCall>

    constructor ()
      ensures active == DEFAULT_ACTIVE && alphaTest == DEFAULT_ALPHA_TEST
      ensures handler == null && frameCalls == []
      ensures fresh(context) && context.Tracked() == UNTRACKED && context.launches == []
    {
      active, alphaTest := DEFAULT_ACTIVE, DEFAULT_ALPHA_TEST;
      handler := null;
      context := new BrowserContext();
      frameCalls := [];
    }

    /** The browser client InitializeCEFBrowser creates (creating the
        browser itself is not modelled). */
    method CreateHandler()
      modifies this`handler
      ensures handler != null && fresh(handler) && fresh(handler.renderHandler) && fresh(handler.input)
      ensures handler.renderHandler.width == SURFACE_SIZE && handler.renderHandler.height == SURFACE_SIZE
      ensures handler.renderHandler.Valid() && handler.renderHandler.buffer == None
    {
      handler := new CefHandler(SURFACE_SIZE, SURFACE_SIZE);
    }

    /** SetURL: load the page in the tracked frame, if there is one. */
    method SetURL(url: string) returns (ok: bool)
      modifies this`frameCalls
      ensures ok == context.frame.Some?
      ensures frameCalls == old(frameCalls) + if ok then [LoadUrl(context.frame.value, url)] else []
    {
      if context.frame.Some? {
        frameCalls := frameCalls + [LoadUrl(context.frame.value, url)];
        return true;
      }
      return false;
    }

    /** ExecuteJS: run the script in the tracked frame, if there is one. */
    method ExecuteJS(code: string) returns (ok: bool)
      modifies this`frameCalls
      ensures ok == context.frame.Some?
      ensures frameCalls == old(frameCalls)
        + if ok then [ExecuteJavaScript(context.frame.value, code, SCRIPT_URL, SCRIPT_LINE)] else []
    {
      if context.frame.Some? {
        frameCalls := frameCalls + [ExecuteJavaScript(context.frame.value, code, SCRIPT_URL, SCRIPT_LINE)];
        return true;
      }
      return false;
    }

    /** Command_URL: load the command's argument, if it has one. */
    method CommandUrl(argCount: nat, cmdline: string)
      modifies this`frameCalls
      ensures var a := CommandArgument(argCount, cmdline);
        frameCalls == old(frameCalls)
          + if a.Some? && context.frame.Some? then [LoadUrl(context.frame.value, a.value)] else []
    {
      var a := CommandArgument(argCount, cmdline);
      if a.Some? {
        var _ := SetURL(a.value);
      }
    }

    /** Command_JS: run the command's argument as script, if it has one. */
    method CommandJs(argCount: nat, cmdline: string)
      modifies this`frameCalls
      ensures var a := CommandArgument(argCount, cmdline);
        frameCalls == old(frameCalls)
          + if a.Some? && context.frame.Some? then [ExecuteJavaScript(context.frame.value, a.value, SCRIPT_URL, SCRIPT_LINE)] else []
    {
      var a := CommandArgument(argCount, cmdline);
      if a.Some? {
        var _ := ExecuteJS(a.value);
      }
    }

    /** SetInputMode: forwarded to the input handler when there is one. */
    method SetInputMode(nMode: int, bExclusive: bool, hw: InputBridge.HardwareMouse)
      modifies (if handler != null then {handler.input} else {}), hw
      ensures handler != null ==>
        && handler.input.mode == nMode && handler.input.exclusive == bExclusive
        && hw.counter == old(hw.counter) + InputBridge.CounterDelta(old(handler.input.mode), nMode)
        && handler.input.queue == old(handler.input.queue)
      ensures handler == null ==> unchanged(hw)
    {
      if handler != null {
        handler.input.SetInputMode(nMode, bExclusive, hw);
      }
    }

    /** Command_Input: set the input mode from the command's arguments. */
    method CommandInput(args: seq<string>, parseInt: string -> int, parseBool: string -> bool, hw: InputBridge.HardwareMouse)
      modifies (if handler != null then {handler.input} else {}), hw
      ensures var r := InputModeArguments(args, parseInt, parseBool);
        && (r.None? || handler == null ==> unchanged(hw))
        && (r.None? && handler != null ==> unchanged(handler.input))
        && (r.Some? && handler != null ==>
              && handler.input.mode == r.value.0 && handler.input.exclusive == r.value.1
              && hw.counter == old(hw.counter) + InputBridge.CounterDelta(old(handler.input.mode), r.value.0))
    {
      var r := InputModeArguments(args, parseInt, parseBool);
      if r.Some? {
        SetInputMode(r.value.0, r.value.1, hw);
      }
    }

    /** SetActive: cm5_active becomes 1 or 0. */
    method SetActive(bActive: bool)
      modifies this`active
      ensures active == if bActive then 1.0 else 0.0
      ensures bActive <==> active > 0.0
    {
      active := if bActive then 1.0 else 0.0;
    }

    /** ScaleCoordinates: forwarded to the render handler; without a
        client the output coordinates are left as they were. */
    method ScaleCoordinates(fX: real, fY: real, foX: real, foY: real, bLimit: bool, bCERenderer: bool, viewport: Viewport)
      returns (oX: real, oY: real)
      requires handler != null && bCERenderer ==> viewport.Usable()
      ensures handler == null ==> oX == foX && oY == foY
      ensures handler != null ==>
        var o := RenderBridge.ScaleCoordinates(handler.renderHandler.width, handler.renderHandler.height,
                                               viewport, fX, fY, bLimit, bCERenderer);
        oX == o.0 && oY == o.1
    {
      oX, oY := foX, foY;
      if handler != null {
        var o := RenderBridge.ScaleCoordinates(handler.renderHandler.width, handler.renderHandler.height,
                                               viewport, fX, fY, bLimit, bCERenderer);
        oX, oY := o.0, o.1;
      }
    }

    /** WorldPosToScreenPos: the projected point (projX, projY) and its
        distance from the camera are inputs; without a client nothing is
        written and the result is false. */
    method WorldPosToScreenPos(projX: real, projY: real, depth: real, sX: real, sY: real, sZ: real, viewport: Viewport)
      returns (ok: bool, x: real, y: real, z: real)
      requires handler != null ==> viewport.Usable()
      ensures ok <==> handler != null
      ensures !ok ==> x == sX && y == sY && z == sZ
      ensures ok ==>
        var o := RenderBridge.ScaleCoordinates(handler.renderHandler.width, handler.renderHandler.height,
                                               viewport, projX, projY, false, true);
        x == o.0 && y == o.1 && z == depth
    {
      if handler == null {
        return false, sX, sY, sZ;
      }
      x, y := ScaleCoordinates(projX, projY, projX, projY, false, true, viewport);
      return true, x, y, depth;
    }

    /** GetPixel may read the buffer: off the surface, or once a buffer of
        the surface's size was painted. */
    predicate PixelReadable(x: int, y: int)
      reads this, handler, if handler != null then {handler.renderHandler} else {}
    {
      handler != null && RenderBridge.OnSurface(handler.renderHandler.width, handler.renderHandler.height, x, y) ==>
        handler.renderHandler.buffer.Some?
        && RenderBridge.FitsSurface(handler.renderHandler.width, handler.renderHandler.height, handler.renderHandler.buffer.value)
    }

    /** The alpha of the painted pixel under (fX, fY), truncated to integers. */
    function AlphaAt(fX: real, fY: real): (a: Byte)
      reads this, handler, if handler != null then {handler.renderHandler} else {}
      requires handler != null && PixelReadable(Trunc(fX), Trunc(fY))
    {
      RenderBridge.GetPixel(handler.renderHandler.width, handler.renderHandler.height,
                            handler.renderHandler.buffer, Trunc(fX), Trunc(fY)).a
    }

    /** IsOpaque: active, with a client, and the pixel's alpha at least
        cm5_alphatest * 255. */
    function IsOpaque(fX: real, fY: real): (solid: bool)
      reads this, handler, if handler != null then {handler.renderHandler} else {}
      requires active > 0.0 ==> PixelReadable(Trunc(fX), Trunc(fY))
      ensures solid ==> active > 0.0 && handler != null
      ensures active > 0.0 && handler != null ==> (solid <==> AlphaAt(fX, fY) as real >= alphaTest * 255.0)
    {
      active > 0.0 && handler != null && AlphaAt(fX, fY) as real >= alphaTest * 255.0
    }

    /** IsCursorOnSurface: IsOpaque at the input handler's stored cursor. */
    function IsCursorOnSurface(): (on: bool)
      reads this, handler, if handler != null then {handler.renderHandler, handler.input} else {}
      requires handler != null && active > 0.0 ==> PixelReadable(Trunc(handler.input.xPosition), Trunc(handler.input.yPosition))
      ensures handler == null || active <= 0.0 ==> !on
      ensures handler != null ==> (on <==> IsOpaque(handler.input.xPosition, handler.input.yPosition))
    {
      active > 0.0 && handler != null && IsOpaque(handler.input.xPosition, handler.input.yPosition)
    }
  }

  /** With the default threshold a pixel is opaque exactly when its alpha is
      at least 77; alpha 100 is opaque, 76 is not. */
  lemma DefaultThreshold(p: Plugin, fX: real, fY: real)
    requires p.active > 0.0 && p.handler != null && p.alphaTest == DEFAULT_ALPHA_TEST
    requires p.PixelReadable(Trunc(fX), Trunc(fY))
    ensures p.IsOpaque(fX, fY) <==> p.AlphaAt(fX, fY) >= 77
    ensures p.AlphaAt(fX, fY) == 100 ==> p.IsOpaque(fX, fY)
    ensures p.AlphaAt(fX, fY) == 76 ==> !p.IsOpaque(fX, fY)
  {
    var a := p.AlphaAt(fX, fY);
    assert DEFAULT_ALPHA_TEST * 255.0 == 76.5;
    if a >= 77 {
      assert a as real >= 77.0;
    } else {
      assert a as real <= 76.0;
    }
  }

  /** An inactive plugin never reads the buffer: before any paint, at a
      point on the surface, it is not opaque and not under the cursor. */
  lemma InactiveBeforePaint(p: Plugin, fX: real, fY: real)
    requires p.active == 0.0 && p.handler != null && p.handler.renderHandler.buffer.None?
    requires RenderBridge.OnSurface(p.handler.renderHandler.width, p.handler.renderHandler.height, Trunc(fX), Trunc(fY))
    ensures !p.IsOpaque(fX, fY)
    ensures !p.IsCursorOnSurface()
  {
  }

  /** Off the surface the pixel is transparent, so with a positive threshold
      the point is never opaque. */
  lemma OffSurfaceIsTransparent(p: Plugin, fX: real, fY: real)
    requires p.handler != null && p.alphaTest > 0.0
    requires !RenderBridge.OnSurface(p.handler.renderHandler.width, p.handler.renderHandler.height, Trunc(fX), Trunc(fY))
    ensures !p.IsOpaque(fX, fY)
  {
    assert p.AlphaAt(fX, fY) == 0;
  }
}
