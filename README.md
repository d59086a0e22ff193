# CryHTML5 core, modelled in Dafny

CryHTML5 is a CryENGINE plugin. It renders web pages off screen with the Chromium Embedded Framework (CEF) and draws them over the game. This project models the plugin's bridges, and the modules follow the program's classes:

- **InputBridge** (`input_handler.dfy`) models `CEFCryInputHandler`.
  - Device callbacks turn engine input into tagged events on a FIFO queue.
  - Once per frame, `GetInput` drains the queue in order. It keeps the three mouse-button flags and sends the matching calls to the browser host.
  - `SetInputMode` holds the hardware-cursor reservation exactly while the mode is 3.
- **RenderBridge** (`render_handler.dfy`) models `CEFCryRenderHandler`.
  - It keeps a dirty-rectangle accumulator whose reset sentinel is 10000.
  - The per-frame present step creates, then uploads, then draws.
  - It computes the upload box and source offset, the bounds-checked `GetPixel`, and `ScaleCoordinates` over `real`.
  - The Direct3D calls are recorded as a trace of `GpuAction` values.
- **CryPak** (`crypak.dfy`) models `CEFCryPakResourceHandler`, which serves the `cry://` scheme.
  - It parses a URL into an archive path, a three-character extension and a MIME type.
  - It streams the file through a read cursor.
  - The archive is a map from path to file size. The raw read is an oracle that reports how many bytes it delivered.
- **BrowserHandler** (`cef_handler.dfy`) models `CEFCryHandler`.
  - It tracks the main frame and devtools URL of the first browser that reports one.
  - It answers popup, dialog and context-menu questions with fixed policies.
  - The tracked frame and URL live in `BrowserContext`, which stands for the plugin's `m_refCEFFrame` and `m_sCEFDebugURL`.
- **PluginHTML5** (`plugin.dfy`) models `CPluginHTML5`.
  - It covers the console commands `cm5_url`, `cm5_js` and `cm5_input`.
  - It covers the null-guarded forwarders to the browser client.
  - It covers the alpha-threshold opacity test of the cursor.
- **CryString** (`cry_string.dfy`) models the engine string operations the parsing uses: `find_first_of`, `find_last_of`, `Mid`, `Trim`, `MakeLower`, and `size_t` addition that wraps modulo 2^64.
  - `CryStringT` belongs to the CryENGINE SDK, not to the plugin, so its header is not part of this model. These operations follow the standard meaning of their names: the C locale's `isspace` and `tolower`, and a `Mid` that clamps to the end of the text.
- **Engine** (`engine.dfy`) holds the shared values: `Option`, `Byte`, the viewport, and C++ float-to-int conversion, which truncates toward zero.

The model keeps these quirks of the code as written:

- A `Mouse2` click sets the middle-button flag but sends a right click. A `Mouse3` click sets the right flag but sends a middle click.
- `GetPixel` reads at byte index `width*y + x`, with no factor of 4, so reads at neighbouring pixels overlap.
- The dirty bounds reset to `(10000, 10000, 0, 0)`.
- `IsCursorOnSurface` passes the stored cursor, which is in viewport pixels, to `GetPixel` unscaled, although `GetPixel` indexes the 1024×1024 surface (`PluginHTML5.Plugin.IsCursorOnSurface`).
- A URL without a `/` gives `npos + 2`, which wraps to 1, so its first character is dropped. A path without a `.` gives `npos + 1`, which wraps to 0, so its extension is its first three characters. A command line without a space gives `npos + 1`, which wraps to 0, so the whole line is taken.

Engine state that the code reads through `gEnv` is passed in as parameters: console status, viewport size, frame time and `cm5_active`. The same goes for the ACP-to-UCS-2 conversion of one character. The hardware mouse is a `HardwareMouse` object with its cursor counter and client position, because the handler changes both.

## Model

| member | source | states |
|---|---|---|
| Engine.Trunc | src/CEFInputHandler.hpp:459-462 | a float coordinate stored into an int is cut toward zero: within one unit below a positive value and one unit above a negative one |
| CryString.IsSpace | src/CEFCryPak.hpp:44-48 | the white space Trim removes is exactly the space and the control characters tab through carriage return |
| CryString.SizeAdd | src/CEFCryPak.hpp:43 | size_t addition: exact below 2^64, and npos + b wraps to b - 1 |
| CryString.FindFirst | src/CEFCryPak.hpp:43 | when c occurs, an index holding c; when it does not, npos |
| CryString.FindFirstIsFirst | src/CEFCryPak.hpp:43 | no index before the one found holds c |
| CryString.FirstAt | src/CEFCryPak.hpp:43 | an index holding c with no c before it is the one find_first_of returns |
| CryString.FindLast | src/CEFCryPak.hpp:47 | when c occurs, an index holding c; when it does not, npos |
| CryString.FindLastIsLast | src/CEFCryPak.hpp:47 | no index after the one found holds c |
| CryString.LastAt | src/CEFCryPak.hpp:47 | an index holding c with no c after it is the one find_last_of returns |
| CryString.Mid | src/CEFCryPak.hpp:44-48 | empty when first is past the end; otherwise the slice of the text from first, count characters long or cut at the end of the text |
| CryString.MidToEnd | src/CEFCryPak.hpp:44 | Mid with count npos is the whole rest of the text |
| CryString.TrimLeft | src/CEFCryPak.hpp:44 | no longer than the input, and starts with a non-space |
| CryString.TrimLeftIsSuffix | src/CEFCryPak.hpp:44 | TrimLeft keeps a suffix of the text |
| CryString.TrimLeftRemovesSpace | src/CEFCryPak.hpp:44 | every character TrimLeft removes is white space |
| CryString.TrimRight | src/CEFCryPak.hpp:44 | no longer than the input, and ends with a non-space |
| CryString.TrimRightIsPrefix | src/CEFCryPak.hpp:44 | TrimRight keeps a prefix of the text |
| CryString.TrimRightRemovesSpace | src/CEFCryPak.hpp:44 | every character TrimRight removes is white space |
| CryString.Trim | src/CEFCryPak.hpp:44 | no longer than the input, with no white space at either end |
| CryString.TrimIsSlice | src/CEFCryPak.hpp:44 | Trim keeps one contiguous part of the text |
| CryString.TrimUnpadded | src/CEFCryPak.hpp:44 | text with no white space at either end is its own Trim |
| CryString.LowerChar | src/CEFCryPak.hpp:48 | tolower: capitals move up by 32 (from 'A' = 65 to 'a' = 97) and every other character is unchanged; the result is never a capital |
| CryString.MakeLower | src/CEFCryPak.hpp:48 | keeps the length |
| CryString.MakeLowerMapsChars | src/CEFCryPak.hpp:48 | every character passes through LowerChar at its own index |
| CryString.MakeLowerHasNoCapitals | src/CEFCryPak.hpp:48 | the result holds no capital |
| CryString.MakeLowerIdempotent | src/CEFCryPak.hpp:48 | lowering twice equals lowering once |
| CryString.MakeLowerOfLower | src/CEFCryPak.hpp:48 | text without capitals is unchanged |
| RenderBridge.AddDirty | src/CEFRenderHandler.hpp:57-66 | the new bounds cover the rectangle and enclose the old bounds; a rectangle already covered changes nothing |
| RenderBridge.Accumulate | src/CEFRenderHandler.hpp:332-336 | after folding a list of rectangles, the bounds enclose the start bounds and cover every rectangle |
| RenderBridge.AccumulateAttained | src/CEFRenderHandler.hpp:57-66 | each bound is the start bound or the matching edge of an added rectangle, so the box is the least one that contains them all |
| RenderBridge.AccumulateOrderIndependent | src/CEFRenderHandler.hpp:57-66 | any reordering of the rectangles gives the same bounds |
| RenderBridge.AddDirtyCommutes | src/CEFRenderHandler.hpp:57-66 | two adds in either order give the same bounds |
| RenderBridge.ResetHasNothingPending | src/CEFRenderHandler.hpp:46-52 | the reset bounds are (10000, 10000, 0, 0), and the update gate is closed on them |
| RenderBridge.TwoRectExample | src/CEFRenderHandler.hpp:57-66 | after a reset, rectangles (10,10,5,5) and (100,100,5,5) give bounds (10,10)-(105,105) |
| RenderBridge.Clamp01 | src/CEFRenderHandler.hpp:87-91 | clamp_tpl to [0,1]: values inside are kept, values below become 0 and values above become 1 |
| RenderBridge.ViewportAxis | src/CEFRenderHandler.hpp:78-97 | the viewport-relative axis: view × result = f × size when unclamped; 0 at or below 0 and size at or above the view when clamped |
| RenderBridge.ViewportScale | src/CEFRenderHandler.hpp:78-97 | with bCERenderer: view × output = f × size when no clamp applies; the clamped output lies in [0, size], with the ends reached outside the view |
| RenderBridge.ViewportScaleValue | src/CEFRenderHandler.hpp:78-97 | with bCERenderer and no clamp applying, the output is f × size / view |
| RenderBridge.RelativeScale | src/CEFRenderHandler.hpp:87-97 | without bCERenderer: the output is f × size, or clamp(f, 0, 1) × size, which lies in [0, size], when bLimit is set |
| RenderBridge.ScaleAxis | src/CEFRenderHandler.hpp:78-97 | one axis of ScaleCoordinates under all four flag combinations: f × size with neither flag, clamp(f, 0, 1) × size with bLimit alone, view × output = f × size with bCERenderer inside the view, and 0 or size at the clamped ends |
| RenderBridge.ScaleCoordinates | src/CEFRenderHandler.hpp:70-100 | with bLimit the output lies in [0,width]×[0,height]; without either flag it is (fX·width, fY·height); with bLimit alone it is (clamp(fX,0,1)·width, clamp(fY,0,1)·height); with bCERenderer viewport × output = input × surface size on each unclamped axis |
| RenderBridge.ScaleCentreExample | src/CEFRenderHandler.hpp:70-100 | the viewport centre (960,540) of a 1920×1080 viewport maps to (512,512) on a 1024×1024 surface |
| RenderBridge.GetViewRect | src/CEFRenderHandler.hpp:308-315 | returns true with the rectangle (0, 0, width, height) |
| RenderBridge.GetScreenPoint | src/CEFRenderHandler.hpp:301-306 | returns true with the view point unchanged |
| RenderBridge.GetPixel | src/CEFRenderHandler.hpp:280-294 | (0,0,0,0) off the surface; on it, the four bytes from index width*y + x as (r,g,b,a) |
| RenderBridge.GetPixelOverlapsNeighbour | src/CEFRenderHandler.hpp:289-293 | because the index is not scaled by 4, the red byte at x+1 is the green byte at x, and the alpha at x+1 is the red at x+4 |
| RenderBridge.UploadBox | src/CEFRenderHandler.hpp:206-213 | the upload box is exactly (dx, dy, dx2, dy2), one slice deep |
| RenderBridge.SourceOffset | src/CEFRenderHandler.hpp:219-220 | the offset is 4·(width·top + left), and for a corner on the width × height surface the pixel there lies inside a width·height·4 buffer |
| RenderBridge.UploadStep | src/CEFRenderHandler.hpp:127-130 | under the gate the bounds are reset; otherwise the state is unchanged |
| RenderBridge.UploadGate | src/CEFRenderHandler.hpp:127 | the upload is taken only with pending bounds, so never right after a reset |
| RenderBridge.CreateStep | src/CEFRenderHandler.hpp:227-264 | the texture exists unless its creation failed; a view exists only when both creations succeeded |
| RenderBridge.Present | src/CEFRenderHandler.hpp:115-136 | nothing happens while inactive; creation happens iff active with no texture; the upload of the old bounds happens iff texture, buffer, view and pending bounds all hold, and the upload resets the bounds; a draw happens iff a view exists |
| RenderBridge.PresentTwiceUploadsOnce | src/CEFRenderHandler.hpp:115-136 | two presents with no paint between them upload at most once |
| RenderBridge.ViewFailureIsPermanent | src/CEFRenderHandler.hpp:121-136 | with a texture but no view, nothing is ever created or drawn again |
| RenderBridge.RenderHandler.constructor | src/CEFRenderHandler.hpp:267-277 | keeps the surface size; the bounds are reset; there is no buffer, texture or view |
| RenderBridge.RenderHandler.ResetDirty | src/CEFRenderHandler.hpp:46-52 | the bounds become the sentinel bounds, with nothing pending |
| RenderBridge.RenderHandler.DirtyArea | src/CEFRenderHandler.hpp:57-66 | the bounds become AddDirty of the old bounds and the rectangle |
| RenderBridge.RenderHandler.OnPaint | src/CEFRenderHandler.hpp:326-339 | for a view or a popup paint of any reported size, the bounds become Accumulate of every dirty rectangle, and the new buffer replaces the old one (the last paint wins) |
| RenderBridge.RenderHandler.CreateResources | src/CEFRenderHandler.hpp:227-264 | the new state and the actions taken are those of CreateStep |
| RenderBridge.RenderHandler.UpdateResources | src/CEFRenderHandler.hpp:145-224 | uploads the old bounds at SourceOffset with row pitch width·4, and resets the bounds |
| RenderBridge.RenderHandler.OnPrePresent | src/CEFRenderHandler.hpp:108-142 | the new state and the actions taken are those of Present |
| InputBridge.VirtualKey | src/CEFInputHandler.hpp:242-312 | exactly the non-printable keys, Tab and Enter are rewritten to a Windows virtual-key code |
| InputBridge.ModifierFlags | src/CEFInputHandler.hpp:230-238 | each browser flag is set iff one of its engine modifier bits is set; no mouse-button flag is ever set |
| InputBridge.MapKeyEvent | src/CEFInputHandler.hpp:206-320 | printable iff the key is not one of the fourteen navigation and control keys; the key code comes from the table or from the character; the character code comes from the UI character, the code page or the key |
| InputBridge.HardwareMouseEvents | src/CEFInputHandler.hpp:150-196 | a Position event, then at most one event: a click for a button down or up, a double-click, or a wheel scroll of wheelDelta; a plain move adds none |
| InputBridge.ClickOn | src/CEFInputHandler.hpp:379-403 | a click is queued only for Pressed and Released |
| InputBridge.PointerInput | src/CEFInputHandler.hpp:336-423 | mouse motion moves from the hardware position and stops emulation on that axis; the sticks only set emulation, with vertical negated; clicks only on Pressed or Released; scrolls of ±50 only on Pressed |
| InputBridge.KeyboardEvents | src/CEFInputHandler.hpp:425-448 | one Key event for each press or release, with a TextChar after it only for a press of a printable key; a release never yields a TextChar |
| InputBridge.InputEffect | src/CEFInputHandler.hpp:336-448 | mouse and controller input applies only in mode ≥ 2 and keyboard input only in mode ≥ 1; other devices are ignored |
| InputBridge.FocusEvents | src/CEFInputHandler.hpp:626-643 | ACTIVATE with wparam 0 queues LostFocus, and with any other wparam nothing; CHANGE_FOCUS queues GotFocus or LostFocus by wparam |
| InputBridge.CounterDelta | src/CEFInputHandler.hpp:108-123 | the counter goes up only on entering mode 3 and down only on leaving it |
| InputBridge.NetCounterTelescopes | src/CEFInputHandler.hpp:108-123 | over any sequence of modes the net change is [final = 3] − [initial = 3], which is always between −1 and 1 |
| InputBridge.RepeatedModeThreeCountsOnce | src/CEFInputHandler.hpp:108-123 | setting mode 3 twice and then mode 1 increments once and decrements once |
| InputBridge.ButtonFlags | src/CEFInputHandler.hpp:498-501 | each mouse-button flag is set iff its button flag is held |
| InputBridge.ScaleMouse | src/CEFInputHandler.hpp:457-463 | the scaled mouse lies on the surface and keeps its modifiers |
| InputBridge.ScaleMouseX | src/CEFInputHandler.hpp:457-463 | inside the viewport, x becomes x × surface width / viewport width, truncated toward zero |
| InputBridge.ScaleMouseY | src/CEFInputHandler.hpp:457-463 | inside the viewport, y becomes y × surface height / viewport height, truncated toward zero |
| InputBridge.Char16 | src/CEFInputHandler.hpp:591-592 | the character fields hold 16 bits; a code that fits is kept |
| InputBridge.ClickButton | src/CEFInputHandler.hpp:536-578 | Mouse1 and only Mouse1 sends a left click, Mouse2 and only Mouse2 a right click, Mouse3 and only Mouse3 a middle click |
| InputBridge.SetFlag | src/CEFInputHandler.hpp:528-551 | a click's key sets its own flag (Mouse1 left, Mouse2 middle, Mouse3 right) and no other |
| InputBridge.SwappedClickModifiers | src/CEFInputHandler.hpp:539-558 | a Mouse2 press sends a right click carrying only the middle-button modifier; a Mouse3 press a middle click carrying only the right-button modifier |
| InputBridge.Dispatch | src/CEFInputHandler.hpp:514-619 | one or two calls per event; a click sets the flag of its key to Pressed and sends the swapped button; focus loss clears all three flags; a double-click changes no flag |
| InputBridge.DrainAllAppend | src/CEFInputHandler.hpp:510-622 | draining two runs one after the other is draining their concatenation, so every event is delivered once and in order |
| InputBridge.DrainAllCallCount | src/CEFInputHandler.hpp:510-622 | the drain makes exactly as many calls as its events require |
| InputBridge.DrainWithoutClicksKeepsButtons | src/CEFInputHandler.hpp:510-622 | a queue with no click and no focus loss leaves the three flags as they were |
| InputBridge.DrainEndingInLostFocus | src/CEFInputHandler.hpp:606-613 | a queue that ends in focus loss leaves every button released |
| InputBridge.LostFocusKeepsMouseModifiers | src/CEFInputHandler.hpp:584-613 | focus loss clears the flags but not the reused mouse event's modifiers, so a scroll right after it still reports the held button |
| InputBridge.KeyPressReachesBrowser | src/CEFInputHandler.hpp:588-604 | a printable key press reaches the browser as a key-down followed by a char event; a navigation key press as a key-down only |
| InputBridge.StartState | src/CEFInputHandler.hpp:494-503 | the drain starts with the current flags, and the reused mouse event carries the matching modifiers |
| InputBridge.EmulatedPosition | src/CEFInputHandler.hpp:473-492 | the stick moves the position iff either emulation value leaves the 0.01 dead zone, by value × emulation scale × frame time from the hardware position (the scale is 500 from construction) |
| InputBridge.InputHandler.constructor | src/CEFInputHandler.hpp:90-106 | empty queue, emulation scale 500, zero position and emulation, no button held, mode 0, exclusive |
| InputBridge.InputHandler.SetInputMode | src/CEFInputHandler.hpp:108-123 | stores the mode and the exclusive flag, and moves the counter by CounterDelta; the counter minus the reservation held is unchanged |
| InputBridge.InputHandler.UnregisterListeners | src/CEFInputHandler.hpp:125-133 | ends in mode 0, not exclusive, and gives back any mode-3 reservation |
| InputBridge.InputHandler.OnHardwareMouseEvent | src/CEFInputHandler.hpp:141-197 | nothing while inactive; otherwise reads the hardware position and, only in mode 3, appends HardwareMouseEvents |
| InputBridge.InputHandler.OnInputEvent | src/CEFInputHandler.hpp:322-451 | returns false and changes nothing when the console is open or the plugin is inactive; otherwise returns the exclusive flag and applies InputEffect |
| InputBridge.InputHandler.MoveAxis | src/CEFInputHandler.hpp:340-369 | relative motion on one axis gives the new pointer and the Position event that PointerInput prescribes |
| InputBridge.InputHandler.OnPointerInput | src/CEFInputHandler.hpp:336-423 | the new pointer and the queued events are those of PointerInput |
| InputBridge.InputHandler.OnKeyboardInput | src/CEFInputHandler.hpp:425-448 | appends KeyboardEvents to the queue |
| InputBridge.InputHandler.OnSystemEvent | src/CEFInputHandler.hpp:626-643 | appends FocusEvents to the queue |
| InputBridge.InputHandler.EmulateStick | src/CEFInputHandler.hpp:473-492 | moves the position and the hardware cursor to EmulatedPosition and queues a Position event for it, or changes nothing inside the dead zone |
| InputBridge.InputHandler.DispatchItem | src/CEFInputHandler.hpp:512-619 | one loop iteration sends the calls of Dispatch and takes its new mouse event and flags |
| InputBridge.InputHandler.DrainQueue | src/CEFInputHandler.hpp:510-622 | empties the queue; the calls and the final flags are those of DrainAll on the old queue |
| InputBridge.InputHandler.GetInput | src/CEFInputHandler.hpp:469-623 | runs the stick step, then drains the old queue plus any emulated Position event from StartState; ends with an empty queue |
| InputBridge.InputHandler.OnPostUpdate | src/CEFInputHandler.hpp:645-653 | nothing while inactive; otherwise the calls and final button flags of draining the old queue plus any emulated Position event, ending with an empty queue |
| InputBridge.InputHandler.GetCursorPos | src/CEFInputHandler.hpp:667-671 | returns the stored hardware position |
| CryPak.UrlPath | src/CEFCryPak.hpp:43-44 | the URL from two characters after its first '/', trimmed; with no '/', the URL from its second character |
| CryPak.Extension | src/CEFCryPak.hpp:47-48 | at most three characters, none of them a capital |
| CryPak.ExtensionAfterLastDotOf | src/CEFCryPak.hpp:47-48 | with a '.' in the path, the extension starts right after the last one |
| CryPak.ExtensionWithoutDot | src/CEFCryPak.hpp:47-48 | with no '.', npos + 1 wraps to 0 and the extension comes from the start of the path |
| CryPak.MimeType | src/CEFCryPak.hpp:51-71 | png, jpg, jpe, bmp and js get their types from the table, and every other extension gets text/html |
| CryPak.UrlPathOfSchemeUrl | src/CEFCryPak.hpp:43-44 | for scheme://rest with no '/' in the scheme, the path is rest, trimmed |
| CryPak.TestPagePath | src/CEFCryPak.hpp:43-44 | the start page cry://UI/TestUI.html gives the path UI/TestUI.html |
| CryPak.UrlWithoutSlash | src/CEFCryPak.hpp:43-44 | a URL without '/' loses its first character |
| CryPak.ExtensionOfFileName | src/CEFCryPak.hpp:47-48 | for name.ext, with a short, unpadded, dot-free ext, the extension is ext lowered |
| CryPak.CleanExtension | src/CEFCryPak.hpp:48 | three clean, small characters pass Trim and MakeLower unchanged |
| CryPak.ExtensionOfSuffix | src/CEFCryPak.hpp:47-48 | after the last dot, the first three characters of a clean suffix are the extension |
| CryPak.LastDotBeforeSuffix | src/CEFCryPak.hpp:47 | the dot before a dot-free suffix is the last one |
| CryPak.MidAfterDot | src/CEFCryPak.hpp:48 | Mid right after that dot reads the suffix |
| CryPak.ExtensionAfterLastDot | src/CEFCryPak.hpp:47-48 | the extension comes from the dot-free suffix, whatever its length |
| CryPak.HtmlPageExtension | src/CEFCryPak.hpp:47-48 | ".html" is cut to "htm" |
| CryPak.HtmlPageMime | src/CEFCryPak.hpp:51-71 | so an HTML page is text/html through the default entry |
| CryPak.CapitalExtension | src/CEFCryPak.hpp:48 | ".PNG" gives "png" |
| CryPak.CapitalExtensionMime | src/CEFCryPak.hpp:53-56 | so ".PNG" is served as image/png |
| CryPak.LongJpegMime | src/CEFCryPak.hpp:47-61 | ".jpeg" is cut to "jpe", the table's second JPEG entry, so it is still served as image/jpeg |
| CryPak.DotlessExtension | src/CEFCryPak.hpp:47-48 | a dot-free path takes its first three characters as the extension |
| CryPak.DotlessPathExtension | src/CEFCryPak.hpp:47-48 | "license" gives the extension "lic" |
| CryPak.DotlessPathMime | src/CEFCryPak.hpp:51-71 | so "license" is served as text/html |
| CryPak.Transfer | src/CEFCryPak.hpp:147-150 | the bytes read are at most the request, what is left of the file and what the archive delivers, and equal one of the three |
| CryPak.ReadStep | src/CEFCryPak.hpp:141-166 | data is read iff the offset is below the size, the output buffer exists and the file is open; the offset advances by exactly the bytes read and stays within the size; otherwise 0 bytes are read and an open file is closed |
| CryPak.CancelStep | src/CEFCryPak.hpp:118-125 | the handle ends closed, and FClose is called only when it was open |
| CryPak.CancelIdempotent | src/CEFCryPak.hpp:118-125 | a second Cancel is a no-op |
| CryPak.ReadAllBounded | src/CEFCryPak.hpp:144-158 | over any sequence of reads the offset advances by the total read and never passes the size, and the file is closed at most once |
| CryPak.ClosedStaysClosed | src/CEFCryPak.hpp:160-166 | after a read that finds nothing, later reads yield nothing and close nothing |
| CryPak.WholeFileInOneRead | src/CEFCryPak.hpp:135-167 | a request at least as large as the file reads it whole, and the next read ends the response and closes the file |
| CryPak.ResourceHandler.constructor | src/CEFCryPak.hpp:21-27 | null handle, extension "html", size and offset 0 |
| CryPak.ResourceHandler.ParseRequest | src/CEFCryPak.hpp:39-71 | stores UrlPath, then its Extension, then its MimeType |
| CryPak.ResourceHandler.ProcessRequest | src/CEFCryPak.hpp:34-90 | parses the URL; returns true, holds the handle and records the size iff the path is in the archive; otherwise returns false with a null handle; a fresh cursor at offset 0 stays valid |
| CryPak.ResourceHandler.GetResponseHeaders | src/CEFCryPak.hpp:98-116 | 200 with the size when a handle is held, 404 with length 0 otherwise; the MIME type is set in both cases |
| CryPak.ResourceHandler.Cancel | src/CEFCryPak.hpp:118-125 | the new cursor is CancelStep of the old one |
| CryPak.ResourceHandler.ReadResponse | src/CEFCryPak.hpp:135-167 | the new cursor, the bytes read and the result are those of ReadStep, and the offset stays within the size |
| BrowserHandler.AfterCreated | src/CEFHandler.hpp:127-138 | with no devtools URL recorded, tracks the browser's main frame and URL; otherwise changes nothing; keeps a recorded URL paired with a frame |
| BrowserHandler.BeforeClose | src/CEFHandler.hpp:140-147 | forgets frame and URL when nothing is tracked or the tracked browser closes; otherwise changes nothing |
| BrowserHandler.RecordedTrackingIsKept | src/CEFHandler.hpp:127-138 | once a URL is recorded, no number of later creations changes the tracking |
| BrowserHandler.FirstBrowserWins | src/CEFHandler.hpp:127-138 | the first browser created with a devtools URL stays tracked through any later creations |
| BrowserHandler.EmptyUrlIsReplaced | src/CEFHandler.hpp:129-133 | a browser with an empty devtools URL leaves the next browser free to replace it |
| BrowserHandler.CloseOnlyForgetsTracked | src/CEFHandler.hpp:140-147 | closing the tracked browser forgets it; closing another browser does not |
| BrowserHandler.BrowserContext.ShowDevTools | src/CPluginHTML5.cpp:340-346 | asks for the devtools page only when its URL is known |
| BrowserHandler.CefHandler.constructor | src/CEFHandler.hpp:61-65 | a fresh render handler of the given size, in its initial state, and a fresh input handler |
| BrowserHandler.CefHandler.OnAfterCreated | src/CEFHandler.hpp:127-138 | the tracking becomes AfterCreated, and the devtools page is requested only when a new non-empty URL was recorded |
| BrowserHandler.CefHandler.OnBeforeClose | src/CEFHandler.hpp:140-147 | the tracking becomes BeforeClose |
| BrowserHandler.CefHandler.OnBeforePopup | src/CEFHandler.hpp:149-152 | always cancels the popup |
| BrowserHandler.CefHandler.OnFileDialog | src/CEFHandler.hpp:99-103 | always cancels the callback and reports the dialog handled |
| BrowserHandler.CefHandler.OnJSDialog | src/CEFHandler.hpp:111-119 | always suppresses the message and reports it not handled |
| BrowserHandler.CefHandler.OnBeforeContextMenu | src/CEFHandler.hpp:88-91 | the menu model is always emptied |
| PluginHTML5.CommandText | src/CPluginHTML5.cpp:84-90 | the command line after its first space, trimmed (the whole line when there is no space), with no white space at either end |
| PluginHTML5.CommandTextOfArgument | src/CPluginHTML5.cpp:84-90 | for "name argument" the text is the argument, trimmed |
| PluginHTML5.CommandArgument | src/CPluginHTML5.cpp:79-98 | an argument exists iff there is more than one argument and the text is not empty |
| PluginHTML5.UrlCommandExample | src/CPluginHTML5.cpp:79-98 | "cm5_url <url>" yields exactly the URL |
| PluginHTML5.BlankArgumentIgnored | src/CPluginHTML5.cpp:93-96 | an argument of only white space yields nothing |
| PluginHTML5.InputModeArguments | src/CPluginHTML5.cpp:121-132 | two arguments give (mode, false), three give (mode, flag), and any other count gives nothing |
| PluginHTML5.Plugin.constructor | src/CPluginHTML5.cpp:16-23 | no client and no tracked frame, with an empty devtools URL; cm5_active 1.0 and cm5_alphatest 0.3, the defaults the console variables are registered with at src/CPluginHTML5.cpp:151-152 |
| PluginHTML5.Plugin.CreateHandler | src/CPluginHTML5.cpp:313 | creates the client with a 1024×1024 surface |
| PluginHTML5.Plugin.SetURL | src/CPluginHTML5.cpp:387-396 | true iff a frame is tracked, and only then is the page loaded in it |
| PluginHTML5.Plugin.ExecuteJS | src/CPluginHTML5.cpp:398-407 | true iff a frame is tracked, and only then is the script run in it, as "CryHTML" line 0 |
| PluginHTML5.Plugin.CommandUrl | src/CPluginHTML5.cpp:79-98 | loads the command argument, when there is one and a frame is tracked |
| PluginHTML5.Plugin.CommandJs | src/CPluginHTML5.cpp:100-119 | runs the command argument as script, when there is one and a frame is tracked |
| PluginHTML5.Plugin.SetInputMode | src/CPluginHTML5.cpp:446-452 | forwarded to the input handler when there is a client; a no-op otherwise |
| PluginHTML5.Plugin.CommandInput | src/CPluginHTML5.cpp:121-132 | sets the input mode from the arguments; any other argument count changes nothing |
| PluginHTML5.Plugin.SetActive | src/CPluginHTML5.cpp:454-457 | cm5_active becomes 1.0 or 0.0, and is positive iff activated |
| PluginHTML5.Plugin.ScaleCoordinates | src/CPluginHTML5.cpp:438-444 | the render handler's ScaleCoordinates when there is a client; the output is untouched otherwise |
| PluginHTML5.Plugin.WorldPosToScreenPos | src/CPluginHTML5.cpp:409-436 | false and nothing written without a client; otherwise the projected point scaled without clamp, with depth in z |
| PluginHTML5.Plugin.IsOpaque | src/CPluginHTML5.cpp:472-482 | false when inactive or without a client; otherwise alpha ≥ cm5_alphatest·255 |
| PluginHTML5.Plugin.IsCursorOnSurface | src/CPluginHTML5.cpp:459-470 | false when inactive or without a client; otherwise IsOpaque at the input handler's stored cursor |
| PluginHTML5.InactiveBeforePaint | src/CPluginHTML5.cpp:459-482 | an inactive plugin with a client but no painted buffer is neither opaque nor under the cursor at a point on the surface, without reading the buffer |
| PluginHTML5.DefaultThreshold | src/CPluginHTML5.cpp:472-482 | with the default threshold 0.3 a pixel is opaque iff its alpha is at least 77, so 100 is opaque and 76 is not |
| PluginHTML5.OffSurfaceIsTransparent | src/CPluginHTML5.cpp:472-478 | off the surface a point is never opaque when the threshold is positive |

## Left out

- The Direct3D and CryENGINE graphics work (texture and view creation, `UpdateSubresource`, the fullscreen triangle drawer) is recorded as `GpuAction` values, and creation outcomes are inputs. The compiled-out `USE_MAPPED` branch is not modelled.
- Plugin lifecycle and registration are not modelled: `Init`, `RegisterTypes`, the dependency checks, `InitializeCEF`, `InitializeCEFBrowser` apart from the client it creates, `ShutdownCEF` and `Command_DevTools`. `LaunchExternalBrowser` is modelled only as the list of launch requests `ShowDevTools` makes.
- The load handler's callbacks only log, so they are not modelled. The same goes for every other logging call.
- The empty or constant callbacks are not modelled: `OnPostPresent`, `OnPreReset`, `OnPostReset`, `OnPostBeginScene`, `GetScreenInfo` (returns false), `OnPopupSize`, `OnSaveGame`, `OnLoadGame`, `OnLevelEnd`, `OnActionEvent`.
- `GetRootScreenRect` equals `GetViewRect` and `OnInputEventUI` equals `OnInputEvent`, so neither is modelled separately.
- The scheme handler factory's `Create` only constructs a handler, so it is `ResourceHandler`'s constructor.
- Concurrency is not modelled: the paint and render threads hand the buffer over without synchronisation, and everything here is sequential.
- Float rounding is not modelled. Positions, emulation and scaling are `real`. 32-bit `int` overflow in coordinates, the dirty bounds, the pixel index and the byte offset is not modelled.
- The vector math of `WorldPosToScreenPos` (camera projection, offsets, the distance) is not modelled. The projected point and its depth are inputs.
- The ACP-to-UTF-8-to-UCS-2 conversion in `MapKeyEvent` is a function parameter. The UTF-8/UCS-2 conversions of URLs, commands and scripts are the identity here.
- `CryPak.Extension`: text is a sequence of characters, while `CryStringT` over UTF-8 counts bytes. `Mid(nOffset, 3)` keeps three characters here and three bytes in the source, so a multi-byte character can give a longer extension here ("a.ñxy" gives "ñxy" here and "ñx" in the source). The MIME type is the same either way, because every table key is ASCII.
- Archive I/O (`FOpen`, `FGetSize`, `FReadRaw`, `FClose`) is a map from path to size, a delivered-bytes input, and a count of closes.
- The handle an earlier `ProcessRequest` left open on the same handler is not modelled separately; the `open` flag is overwritten.
- `CryPak.Transfer`: `bytes_to_read` is a `nat`. The source's `int` request and its `static_cast<int>` of the bytes left are not modelled for negative or over-wide values.
- `CryPak.UrlPath`: states its result only for URLs shorter than 2^64 − 1 characters, where `find_first_of(...) + 2` cannot wrap past a found index. The same bound applies to `PluginHTML5.CommandText` and to the extension lemmas.
- `RenderBridge.GetPixel`: requires a painted buffer of the surface's size for on-surface points. Before the first paint the source reads through a null pointer. `PluginHTML5.Plugin.IsOpaque` and `PluginHTML5.Plugin.IsCursorOnSurface` carry the same requirement through `PixelReadable`, but only while the plugin is active; an inactive plugin returns false without reading.
- `RenderBridge.ScaleCoordinates`: requires a positive viewport when `bCERenderer` is set, where the source would divide by zero. `InputBridge.ScaleMouse`, `InputBridge.InputHandler.GetInput`, `PluginHTML5.Plugin.ScaleCoordinates` and `PluginHTML5.Plugin.WorldPosToScreenPos` carry the same requirement.
- `InputBridge.InputHandler.OnPostUpdate`: when no frame is tracked the source dereferences a null frame. The model drains as if a frame exists.
- `InputBridge.InputHandler.GetInput`: the key event's `modifiers` field is never assigned in the source, so the model does not carry it. The browser host is the returned list of calls.
- `PluginHTML5.Plugin.WorldPosToScreenPos`: the source's null check of the render handler is always true here, because a client always owns a render handler.
- `InputBridge.ScaleMouse`: the plugin's forwarder has its own null guard, but the input handler exists only inside a client, so the model always scales.
