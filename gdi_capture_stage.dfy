/**
 * The GDI window capture stage (src/native/stages/gdi-capture-stage.cpp,
 * fields from gdi-capture-stage.h): finds a window by its exact title (or
 * takes the foreground window), sizes a texture to its client area and
 * copies the window into it on every frame.
 *
 * The window system is an oracle: the top-level windows in `EnumWindows`
 * order with their titles, the foreground window, the client rectangle and
 * the cursor. A window handle is a positive number; null is `None`.
 */
module GdiCapture {
  import opened Text
  import opened Common
  import opened Config
  import opened Stage
  import opened Pacing
  import opened D3D11Utils

  /**
   * A top-level window: its handle, its title as Unicode text, and the same
   * title as `GetWindowTextA` converts it to the system's ANSI code page
   * (the conversion is an oracle: it depends on the machine's code page).
   */
  datatype Window = Window(handle: nat, title: string, ansiTitle: seq<byte>)

  /** `CURSOR_SHOWING`. */
  const CursorShowing: int := 1

  /** The capacity of the title buffer `findMatchingWindow` passes to `GetWindowTextA`, NUL included. */
  const TitleBufferSize: nat := 256

  /** The UTF-8 encoding of one Unicode scalar value. */
  function Utf8Char(c: char): (r: seq<byte>)
    ensures 1 <= |r| <= 4
    ensures |r| == 1 <==> c as int < 0x80
    ensures |r| == 1 ==> r[0] as int == c as int
    ensures c as int != 0 ==> 0 !in r
  {
    var n := c as int;
    if n < 0x80 then [n as byte]
    else if n < 0x800 then [(0xC0 + n / 0x40) as byte, (0x80 + n % 0x40) as byte]
    else if n < 0x1_0000 then [(0xE0 + n / 0x1000) as byte, (0x80 + n / 0x40 % 0x40) as byte, (0x80 + n % 0x40) as byte]
    else [(0xF0 + n / 0x4_0000) as byte, (0x80 + n / 0x1000 % 0x40) as byte,
          (0x80 + n / 0x40 % 0x40) as byte, (0x80 + n % 0x40) as byte]
  }

  /**
   * The bytes of the `std::string` N-API makes of a JavaScript string
   * (main.cpp reads the window title with `std::string(... As<Napi::String>())`):
   * its UTF-8 encoding.
   */
  function Utf8(s: string): (r: seq<byte>)
    ensures |r| >= |s|
  {
    if |s| == 0 then [] else Utf8(s[..|s| - 1]) + Utf8Char(s[|s| - 1])
  }

  /** The bytes a C function taking `const char *` sees: up to the first NUL. */
  function UntilNul(b: seq<byte>): (r: seq<byte>)
    ensures |r| <= |b| && r == b[..|r|] && 0 !in r
    ensures |r| < |b| ==> b[|r|] == 0
  {
    if |b| == 0 then []
    else if b[0] == 0 then []
    else [b[0]] + UntilNul(b[1..])
  }

  /** The title as `GetWindowTextA` writes it into a 256-byte buffer: at most 255 bytes. */
  function ReadTitle(ansiTitle: seq<byte>): (r: seq<byte>)
    ensures |r| <= TitleBufferSize - 1
    ensures |ansiTitle| < TitleBufferSize ==> r == ansiTitle
  {
    if |ansiTitle| < TitleBufferSize then ansiTitle else ansiTitle[..TitleBufferSize - 1]
  }

  /** `strcmp(title, requested.c_str()) == 0` on the bytes: the requested side ends at its first NUL. */
  predicate BytesMatch(ansiTitle: seq<byte>, requested: seq<byte>)
  {
    ReadTitle(ansiTitle) == UntilNul(requested)
  }

  /**
   * `findMatchingWindow`'s test as written: the window's ANSI title against
   * the UTF-8 bytes of the requested title.
   */
  predicate TitleMatches(w: Window, requested: string)
  {
    BytesMatch(w.ansiTitle, Utf8(requested))
  }

  /** The first window at or after index i whose title matches. */
  function FirstTitled(windows: seq<Window>, requested: string, i: nat): (r: Option<nat>)
    requires i <= |windows|
    ensures r.Some? ==> i <= r.value < |windows| && TitleMatches(windows[r.value], requested)
    ensures r.Some? ==> forall j :: i <= j < r.value ==> !TitleMatches(windows[j], requested)
    ensures r.None? ==> forall j :: i <= j < |windows| ==> !TitleMatches(windows[j], requested)
    decreases |windows| - i
  {
    if i == |windows| then None
    else if TitleMatches(windows[i], requested) then Some(i)
    else FirstTitled(windows, requested, i + 1)
  }

  /**
   * `getWindowHandleByTitle`: `EnumWindows` calls `findMatchingWindow` on each
   * window in turn until it returns false, which it does at the first match
   * after recording that window's handle. `visited` counts the callbacks.
   */
  method GetWindowHandleByTitle(windows: seq<Window>, requested: string) returns (hwnd: Option<nat>, visited: nat)
    ensures FirstTitled(windows, requested, 0).Some? ==>
              var k := FirstTitled(windows, requested, 0).value;
              hwnd == Some(windows[k].handle) && visited == k + 1
    ensures FirstTitled(windows, requested, 0).None? ==> hwnd == None && visited == |windows|
  {
    hwnd := None;
    visited := 0;
    var keepGoing := true;
    var wanted := UntilNul(Utf8(requested));
    while visited < |windows| && keepGoing
      invariant 0 <= visited <= |windows|
      invariant keepGoing ==> hwnd == None && FirstTitled(windows, requested, 0) == FirstTitled(windows, requested, visited)
      invariant !keepGoing ==> visited >= 1 && FirstTitled(windows, requested, 0) == Some(visited - 1)
                               && hwnd == Some(windows[visited - 1].handle)
    {
      var w := windows[visited];
      if ReadTitle(w.ansiTitle) == wanted {
        hwnd := Some(w.handle);
        keepGoing := false;
      }
      visited := visited + 1;
    }
  }

  /** The window `initialize` captures: the foreground one for an empty title, else the first exact match. */
  function ChosenWindow(windowTitle: string, windows: seq<Window>, foreground: Option<nat>): Option<nat>
  {
    if |windowTitle| == 0 then foreground
    else match FirstTitled(windows, windowTitle, 0)
      case Some(k) => Some(windows[k].handle)
      case None => None
  }

  /** The window lookup of `initialize`: `GetForegroundWindow` for an empty title, else `getWindowHandleByTitle`. */
  method FindWindow(windowTitle: string, windows: seq<Window>, foreground: Option<nat>) returns (hWnd: Option<nat>)
    ensures hWnd == ChosenWindow(windowTitle, windows, foreground)
  {
    if |windowTitle| == 0 {
      hWnd := foreground;
    } else {
      var visited;
      hWnd, visited := GetWindowHandleByTitle(windows, windowTitle);
    }
  }

  /** A requested title whose UTF-8 bytes run past the 255 bytes `GetWindowTextA` returns never matches. */
  lemma LongTitlesNeverMatch(windows: seq<Window>, requested: string)
    requires |UntilNul(Utf8(requested))| >= TitleBufferSize
    ensures FirstTitled(windows, requested, 0).None?
  {
  }

  /** A window whose ANSI title is longer than 255 bytes is found by its first 255 bytes only. */
  lemma LongWindowTitleMatchesItsPrefix(w: Window)
    requires |w.ansiTitle| >= TitleBufferSize && 0 !in w.ansiTitle
    ensures BytesMatch(w.ansiTitle, w.ansiTitle[..TitleBufferSize - 1])
    ensures !BytesMatch(w.ansiTitle, w.ansiTitle)
  {
    NoNulIsWhole(w.ansiTitle[..TitleBufferSize - 1]);
    NoNulIsWhole(w.ansiTitle);
  }

  lemma NoNulIsWhole(b: seq<byte>)
    requires 0 !in b
    ensures UntilNul(b) == b
  {
  }

  /** An ASCII string: every character below 0x80 and none of them NUL. */
  predicate IsAscii(s: string)
  {
    forall i :: 0 <= i < |s| ==> 0 < s[i] as int < 0x80
  }

  /** The one-byte-per-character encoding of an ASCII string. */
  predicate AsciiBytesOf(b: seq<byte>, s: string)
  {
    |b| == |s| && forall i :: 0 <= i < |s| ==> b[i] as int == s[i] as int
  }

  /** UTF-8 encodes ASCII text one byte per character. */
  lemma {:induction false} Utf8OfAscii(s: string)
    requires IsAscii(s)
    ensures AsciiBytesOf(Utf8(s), s)
  {
    if |s| > 0 {
      Utf8OfAscii(s[..|s| - 1]);
    }
  }

  /**
   * For ASCII titles, on which every ANSI code page agrees with UTF-8, the
   * byte comparison is the text comparison (for titles that fit the buffer).
   */
  lemma AsciiTitlesMatchAsText(w: Window, requested: string)
    requires IsAscii(w.title) && AsciiBytesOf(w.ansiTitle, w.title) && |w.title| < TitleBufferSize
    requires IsAscii(requested)
    ensures TitleMatches(w, requested) <==> w.title == requested
  {
    Utf8OfAscii(requested);
    var u := Utf8(requested);
    assert 0 !in u by {
      forall i | 0 <= i < |u| ensures u[i] != 0 { assert u[i] as int == requested[i] as int; }
    }
    NoNulIsWhole(u);
    if w.ansiTitle == u {
      assert forall i :: 0 <= i < |w.title| ==> w.title[i] == requested[i];
    }
  }

  /**
   * As written, a non-ASCII title is not found; one example: in code page 1252 the
   * window "Café" reads as the bytes 43 61 66 E9, while the requested
   * "Café" arrives as the UTF-8 bytes 43 61 66 C3 A9. Compared as text, as
   * intended, the window matches.
   */
  lemma CafeInCodePage1252DoesNotMatch()
    ensures var w := Window(1, "Caf\U{e9}", [0x43, 0x61, 0x66, 0xE9]);
            !TitleMatches(w, "Caf\U{e9}") && IntendedTitleMatches(w, "Caf\U{e9}")
  {
    var s := "Caf\U{e9}";
    assert s[..3][..2][..1][..0] == [];
    assert Utf8(s[..1]) == [0x43];
    assert Utf8(s[..2]) == [0x43, 0x61] by { assert s[..2][..1] == s[..1]; }
    assert Utf8(s[..3]) == [0x43, 0x61, 0x66] by { assert s[..3][..2] == s[..2]; }
    assert Utf8Char(s[3]) == [0xC3, 0xA9];
    assert Utf8(s) == [0x43, 0x61, 0x66, 0xC3, 0xA9];
  }

  /** The comparison `findMatchingWindow` means to make: the window's title as text against the requested text. */
  predicate IntendedTitleMatches(w: Window, requested: string)
  {
    w.title == requested
  }

  /** The first window at or after index i whose title is the requested text. */
  function FirstTitledIntended(windows: seq<Window>, requested: string, i: nat): (r: Option<nat>)
    requires i <= |windows|
    ensures r.Some? ==> i <= r.value < |windows| && IntendedTitleMatches(windows[r.value], requested)
    ensures r.Some? ==> forall j :: i <= j < r.value ==> !IntendedTitleMatches(windows[j], requested)
    ensures r.None? ==> forall j :: i <= j < |windows| ==> !IntendedTitleMatches(windows[j], requested)
    decreases |windows| - i
  {
    if i == |windows| then None
    else if IntendedTitleMatches(windows[i], requested) then Some(i)
    else FirstTitledIntended(windows, requested, i + 1)
  }

  /**
   * With the intended comparison every window can be found by its title,
   * whatever its script or length: the lookup returns it or an earlier
   * window of the same title.
   */
  lemma EveryTitleIsFound(windows: seq<Window>, k: nat)
    requires k < |windows|
    ensures var r := FirstTitledIntended(windows, windows[k].title, 0);
            r.Some? && r.value <= k && windows[r.value].title == windows[k].title
  {
  }

  /** The window rectangle `GetClientRect` reports, in signed 32-bit coordinates. */
  datatype Rect = Rect(left: int, top: int, right: int, bottom: int)

  datatype Point = Point(x: int, y: int)

  /** What `GetCursorInfo` reports: whether it succeeded, the flags and the screen position. */
  datatype CursorInfo = CursorInfo(ok: bool, flags: int, screenPos: Point)

  /**
   * Where `process` draws the cursor, in client coordinates (`ScreenToClient`
   * subtracts the client area's screen origin), or `None` when it does not.
   */
  function CursorPlacement(captureCursor: bool, cursor: CursorInfo, clientOrigin: Point): (r: Option<Point>)
    ensures r.Some? <==> captureCursor && cursor.ok && cursor.flags == CursorShowing
    ensures r.Some? ==> r.value.x + clientOrigin.x == cursor.screenPos.x && r.value.y + clientOrigin.y == cursor.screenPos.y
  {
    if captureCursor && cursor.ok && cursor.flags == CursorShowing then
      Some(Point(cursor.screenPos.x - clientOrigin.x, cursor.screenPos.y - clientOrigin.y))
    else None
  }

  /** What the calls of `initialize` after the device report. */
  datatype WindowOracle = WindowOracle(windows: seq<Window>, foreground: Option<nat>, clientRect: Rect,
                                       createTextureHr: HResult, newTexture: nat, querySurfaceHr: HResult)

  class GdiCaptureStage {
    var device: Option<Device>
    var texture: Option<nat>
    var hasSurface: bool
    var width: u32
    var height: u32
    var hWnd: Option<nat>
    var limiter: Limiter?
    var captureCursor: bool

    /** The member initialisers of gdi-capture-stage.h (`width`, `height` and `hWnd` have none; they start at zero here). */
    constructor ()
      ensures device.None? && texture.None? && !hasSurface && hWnd.None? && limiter == null && !captureCursor
    {
      device := None;
      texture := None;
      hasSurface := false;
      width := 0;
      height := 0;
      hWnd := None;
      limiter := null;
      captureCursor := false;
    }

    /**
     * `initialize`: the device, then the window (fatal when there is none),
     * the client size, the texture and its surface; the context gets the
     * device and the size only once all of these exist.
     */
    method Initialize(config: PipelineConfig, context: PipelineContext, gpu: GpuOracle, win: WindowOracle,
                      performanceFrequency: int)
      returns (result: Outcome<PipelineContext>)
      requires limiter == null
      modifies this
      ensures captureCursor == config.video.captureCursor
      ensures SelectedDevice(gpu, SearchStrings).Threw? ==>
                result == Threw(SelectedDevice(gpu, SearchStrings).message) && limiter == null
      ensures SelectedDevice(gpu, SearchStrings).Ok? ==>
                && device == Some(SelectedDevice(gpu, SearchStrings).value)
                && hWnd == ChosenWindow(config.video.windowTitle, win.windows, win.foreground)
      ensures SelectedDevice(gpu, SearchStrings).Ok? && hWnd.None? ==>
                result == Threw("Could not find window") && limiter == null
      ensures SelectedDevice(gpu, SearchStrings).Ok? && hWnd.Some? ==>
                && width == U32(win.clientRect.right - win.clientRect.left)
                && height == U32(win.clientRect.bottom - win.clientRect.top)
                && (win.createTextureHr < 0 ==>
                      result == Threw(ErrorCodeMessage("createTexture", win.createTextureHr)) && limiter == null)
                && (win.createTextureHr >= 0 && win.querySurfaceHr < 0 ==>
                      result == Threw(ErrorCodeMessage("querySurface", win.querySurfaceHr)) && limiter == null)
      ensures result.Ok? <==>
                && SelectedDevice(gpu, SearchStrings).Ok?
                && ChosenWindow(config.video.windowTitle, win.windows, win.foreground).Some?
                && win.createTextureHr >= 0 && win.querySurfaceHr >= 0
      ensures result.Ok? ==>
                && result.value == context.(d3Device := device, inputWidth := Some(width), inputHeight := Some(height))
                && texture == Some(win.newTexture) && hasSurface
                && limiter != null && fresh(limiter)
                && limiter.frequency == config.video.frameRate && limiter.performanceFrequency == performanceFrequency
                && limiter.calls == 0 && limiter.startTime == 0
    {
      captureCursor := config.video.captureCursor;
      var created := CreateDeviceAndContext(gpu);
      if created.Threw? {
        return Threw(created.message);
      }
      device := Some(created.value);
      hWnd := FindWindow(config.video.windowTitle, win.windows, win.foreground);
      if hWnd.None? {
        return Threw("Could not find window");
      }
      width := U32(win.clientRect.right - win.clientRect.left);
      height := U32(win.clientRect.bottom - win.clientRect.top);
      var step := ThrowIfFail(win.createTextureHr, "createTexture");
      if step.Fail? {
        return Threw(step.message);
      }
      texture := Some(win.newTexture);
      step := ThrowIfFail(win.querySurfaceHr, "querySurface");
      if step.Fail? {
        return Threw(step.message);
      }
      hasSurface := true;
      result := Ok(context.(d3Device := device, inputWidth := Some(width), inputHeight := Some(height)));
      limiter := new Limiter(config.video.frameRate, performanceFrequency);
    }

    /**
     * `process`: paces first, then copies the window; a failed copy is fatal.
     * Every frame is the same texture. `cursorAt` is where the cursor is
     * drawn and `slept` what the limiter did. `initialize` accepts a zero
     * frame rate, so the limiter may trap here, before anything is copied.
     */
    method Process(now: int, bitBltOk: bool, cursor: CursorInfo, clientOrigin: Point)
      returns (result: Outcome<Token>, cursorAt: Option<Point>, slept: Pace)
      requires limiter != null && limiter.ClockResolves() && texture.Some?
      modifies limiter
      ensures slept == WaitAt(old(limiter.startTime), old(limiter.calls), limiter.frequency,
                              TicksPerMs(limiter.performanceFrequency), now)
      ensures limiter.startTime == Anchor(old(limiter.startTime), now)
      ensures limiter.frequency == 0 ==>
                && slept == DividedByZero && result == Threw(IntegerDivideByZero) && cursorAt == None
                && limiter.calls == old(limiter.calls)
      ensures limiter.frequency > 0 ==> limiter.calls == U32(old(limiter.calls) + 1)
      ensures limiter.frequency > 0 && !bitBltOk ==> result == Threw("BitBlt failed") && cursorAt == None
      ensures limiter.frequency > 0 && bitBltOk ==>
                result == Ok(Texture(texture.value)) && cursorAt == CursorPlacement(captureCursor, cursor, clientOrigin)
    {
      slept := limiter.Wait(now);
      if slept.DividedByZero? {
        return Threw(IntegerDivideByZero), None, slept;
      }
      if !bitBltOk {
        return Threw("BitBlt failed"), None, slept;
      }
      cursorAt := None;
      if captureCursor {
        if cursor.ok {
          if cursor.flags == CursorShowing {
            cursorAt := Some(Point(cursor.screenPos.x - clientOrigin.x, cursor.screenPos.y - clientOrigin.y));
          }
        }
      }
      result := Ok(Texture(texture.value));
    }

    /** `resume`: re-anchors the limiter, if there is one. */
    method Resume(now: int)
      modifies limiter
      ensures limiter != null ==> limiter.calls == 0 && limiter.startTime == now
    {
      if limiter != null {
        limiter.Reset(now);
      }
    }
  }
}
