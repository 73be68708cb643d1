/**
 * The Win32 window of the no-GUI front end: the window procedure (routing,
 * key, size, mouse-move, mouse-button, wheel, close and posted-function
 * messages), the message loop's routing of thread messages, fullscreen
 * switching by window-style arithmetic, and window creation, destruction and
 * resizing.
 *
 * Windows is an oracle: handles, rectangles and success flags are
 * parameters. The window's style words, the thread's message queue and the
 * log of calls out of the platform (into the host, into DefWindowProc, into
 * the window manager) are fields of the platform object.
 */
module Win32Platform {
  import opened Wrappers
  import NoGUIHost

  // Window messages.
  const WM_SIZE: nat := 0x0005
  const WM_CLOSE: nat := 0x0010
  const WM_QUIT: nat := 0x0012
  const WM_KEYDOWN: nat := 0x0100
  const WM_KEYUP: nat := 0x0101
  const WM_MOUSEMOVE: nat := 0x0200
  const WM_LBUTTONDOWN: nat := 0x0201
  const WM_LBUTTONUP: nat := 0x0202
  const WM_RBUTTONDOWN: nat := 0x0204
  const WM_RBUTTONUP: nat := 0x0205
  const WM_MBUTTONDOWN: nat := 0x0207
  const WM_MBUTTONUP: nat := 0x0208
  const WM_MOUSEWHEEL: nat := 0x020A
  const WM_XBUTTONDOWN: nat := 0x020B
  const WM_XBUTTONUP: nat := 0x020C
  const WM_MOUSEHWHEEL: nat := 0x020E
  const WM_USER: nat := 0x0400

  /** The platform's private messages: WM_FUNC is the first, WM_WAKEUP the last. */
  const WM_FIRST: nat := WM_USER + 1337
  const WM_FUNC: nat := WM_FIRST
  const WM_WAKEUP: nat := WM_FIRST + 1
  const WM_LAST: nat := WM_WAKEUP

  // Mouse-button bits of a button message's wParam.
  const MK_LBUTTON: bv32 := 0x0001
  const MK_RBUTTON: bv32 := 0x0002
  const MK_MBUTTON: bv32 := 0x0010
  const MK_XBUTTON1: bv32 := 0x0020
  const MK_XBUTTON2: bv32 := 0x0040

  /** The buttons in the order their events are sent: left, right, middle, X1, X2. */
  const MASKS: seq<bv32> := [MK_LBUTTON, MK_RBUTTON, MK_MBUTTON, MK_XBUTTON1, MK_XBUTTON2]
  const BUTTON_COUNT: nat := 5
  const ALL_BUTTONS: bv32 := 0x73

  // Window styles.
  const WS_POPUP: bv32 := 0x8000_0000
  const WS_CAPTION: bv32 := 0x00C0_0000
  const WS_SYSMENU: bv32 := 0x0008_0000
  const WS_SIZEBOX: bv32 := 0x0004_0000
  const WS_MINIMIZEBOX: bv32 := 0x0002_0000
  const WS_MAXIMIZEBOX: bv32 := 0x0001_0000
  const WS_OVERLAPPEDWINDOW: bv32 := 0x00CF_0000
  const WS_EX_DLGMODALFRAME: bv32 := 0x0000_0001
  const WS_EX_CLIENTEDGE: bv32 := 0x0000_0200
  const WS_EX_STATICEDGE: bv32 := 0x0002_0000

  const WINDOWED_STYLE: bv32 := WS_OVERLAPPEDWINDOW | WS_CAPTION | WS_MINIMIZEBOX | WS_SYSMENU | WS_SIZEBOX
  const WINDOWED_EXSTYLE: bv32 := WS_EX_DLGMODALFRAME | WS_EX_CLIENTEDGE | WS_EX_STATICEDGE
  const FULLSCREEN_STYLE: bv32 := WS_POPUP | WS_MINIMIZEBOX

  /** CW_USEDEFAULT, the signed 32-bit value 0x80000000. */
  const CW_USEDEFAULT: int := -0x8000_0000
  const DEFAULT_WINDOW_WIDTH: int := 1280
  const DEFAULT_WINDOW_HEIGHT: int := 720

  /** A message as GetMessageW returns it; hwnd 0 is a thread message. */
  datatype Msg = Msg(hwnd: int, message: nat, wParam: nat, lParam: nat)

  datatype Rect = Rect(left: int, top: int, right: int, bottom: int)

  /** The calls out of the platform, in order. */
  datatype Call =
    | Host(call: NoGUIHost.HostCall)
    | DefWindowProc(msg: Msg)
    | RunFunction(func: nat)
    | CreateWindow(geometry: NoGUIHost.Geometry)
    | SetWindowPos(rect: Rect)
    | SetWindowText(title: string)
    | SaveWindowGeometry(geometry: NoGUIHost.Geometry)
    | DestroyWindow

  /** The mouse-button state and calls a message leaves behind. */
  datatype Handled = Handled(lastMouseButtons: bv32, calls: seq<Call>)

  // ---------------------------------------------------------------------------
  // Words of a message
  // ---------------------------------------------------------------------------

  function LowWord(v: nat): (w: nat)
    ensures w < 0x1_0000
  {
    v % 0x1_0000
  }

  function HighWord(v: nat): (w: nat)
    ensures w < 0x1_0000
  {
    (v / 0x1_0000) % 0x1_0000
  }

  /** The two words of a 32-bit value put them back together. */
  lemma WordsRecombine(v: nat)
    requires v < 0x1_0000_0000
    ensures HighWord(v) * 0x1_0000 + LowWord(v) == v
  {
  }

  /** A 16-bit word read as a signed short. */
  function Signed16(w: nat): (s: int)
    requires w < 0x1_0000
    ensures -0x8000 <= s < 0x8000
    ensures (s + 0x1_0000) % 0x1_0000 == w
  {
    if w < 0x8000 then w else w - 0x1_0000
  }

  /** The low 32 bits of a WPARAM read as a signed 32-bit integer, as the key code is passed on. */
  function Signed32(v: nat): (s: int)
    ensures -0x8000_0000 <= s < 0x8000_0000
    ensures (s + 0x1_0000_0000) % 0x1_0000_0000 == v % 0x1_0000_0000
  {
    var d := v % 0x1_0000_0000;
    if d < 0x8000_0000 then d else d - 0x1_0000_0000
  }

  /** The low 32 bits of a WPARAM as a DWORD. */
  function Dword(v: nat): bv32
  {
    (v % 0x1_0000_0000) as bv32
  }

  predicate IsMouseButtonMessage(message: nat)
  {
    message == WM_LBUTTONDOWN || message == WM_LBUTTONUP || message == WM_MBUTTONDOWN
    || message == WM_MBUTTONUP || message == WM_RBUTTONDOWN || message == WM_RBUTTONUP
    || message == WM_XBUTTONDOWN || message == WM_XBUTTONUP
  }

  // ---------------------------------------------------------------------------
  // Mouse buttons
  // ---------------------------------------------------------------------------

  /** The five buttons of a button word, in event order: left, right, middle, X1, X2. */
  function ButtonBits(v: bv32): (bits: seq<bool>)
    ensures |bits| == BUTTON_COUNT
  {
    [v & MK_LBUTTON != 0, v & MK_RBUTTON != 0, v & MK_MBUTTON != 0, v & MK_XBUTTON1 != 0, v & MK_XBUTTON2 != 0]
  }

  lemma ButtonBitAt(v: bv32, i: nat)
    requires i < BUTTON_COUNT
    ensures ButtonBits(v)[i] == (v & MASKS[i] != 0)
  {
  }

  /** A button's bit of the XOR says exactly whether it differs between the two words. */
  lemma ChangedButtons(previous: bv32, buttons: bv32)
    ensures forall j :: 0 <= j < BUTTON_COUNT ==>
      ButtonBits(previous ^ buttons)[j] == (ButtonBits(previous)[j] != ButtonBits(buttons)[j])
  {
  }

  /** The button events for the first n buttons: one per changed button, with its new state. */
  function ButtonEvents(changed: seq<bool>, pressed: seq<bool>, n: nat): seq<Call>
    requires n <= |changed| && n <= |pressed|
  {
    if n == 0 then []
    else ButtonEvents(changed, pressed, n - 1)
         + (if changed[n - 1] then [Host(NoGUIHost.MouseButtonEvent(n - 1, pressed[n - 1]))] else [])
  }

  /**
   * The button events are exactly one per changed button, in button order,
   * each carrying that button's new state.
   */
  lemma {:induction false} ButtonEventsExact(changed: seq<bool>, pressed: seq<bool>, n: nat)
    requires n <= |changed| && n <= |pressed|
    ensures var evs := ButtonEvents(changed, pressed, n);
      && (forall k :: 0 <= k < |evs| ==>
            && evs[k].Host? && evs[k].call.MouseButtonEvent?
            && 0 <= evs[k].call.button < n
            && changed[evs[k].call.button]
            && evs[k].call.pressed == pressed[evs[k].call.button])
      && (forall j :: 0 <= j < n && changed[j] ==> Host(NoGUIHost.MouseButtonEvent(j, pressed[j])) in evs)
      && (forall k, l :: 0 <= k < l < |evs| ==> evs[k].call.button < evs[l].call.button)
  {
    if n > 0 {
      ButtonEventsExact(changed, pressed, n - 1);
    }
  }

  /** A button event applied to the five button states. */
  function ApplyButton(state: seq<bool>, c: Call): (r: seq<bool>)
    ensures |r| == |state|
  {
    if c.Host? && c.call.MouseButtonEvent? && 0 <= c.call.button < |state|
    then state[c.call.button := c.call.pressed]
    else state
  }

  /** The button events replayed, in order, on the button states. */
  function Replay(state: seq<bool>, calls: seq<Call>): (r: seq<bool>)
    ensures |r| == |state|
  {
    if calls == [] then state
    else ApplyButton(Replay(state, calls[..|calls| - 1]), calls[|calls| - 1])
  }

  /** Replaying one more event applies it to the states reached so far. */
  lemma ReplayOneMore(state: seq<bool>, calls: seq<Call>, c: Call)
    ensures Replay(state, calls + [c]) == ApplyButton(Replay(state, calls), c)
  {
    assert (calls + [c])[..|calls + [c]| - 1] == calls;
  }

  /** Taking button n - 1's new state moves the split between new and previous states one place on. */
  lemma SpliceOneMore(previous: seq<bool>, pressed: seq<bool>, n: nat)
    requires |previous| == |pressed| && 0 < n <= |pressed|
    ensures (pressed[..n - 1] + previous[n - 1..])[n - 1 := pressed[n - 1]] == pressed[..n] + previous[n..]
  {
    var a := (pressed[..n - 1] + previous[n - 1..])[n - 1 := pressed[n - 1]];
    var b := pressed[..n] + previous[n..];
    assert |a| == |b|;
    forall k | 0 <= k < |a| ensures a[k] == b[k] {
      if k < n - 1 {
        assert a[k] == pressed[k] && b[k] == pressed[k];
      } else if k > n - 1 {
        assert a[k] == previous[k] && b[k] == previous[k];
      }
    }
  }

  /**
   * Replaying the events of the first n buttons on the previous states gives
   * the new states of those buttons and leaves the others as they were.
   */
  lemma {:induction false} ReplayButtonEvents(previous: seq<bool>, changed: seq<bool>, pressed: seq<bool>, n: nat)
    requires |previous| == |changed| == |pressed| && n <= |pressed|
    requires forall j :: 0 <= j < |changed| ==> changed[j] == (previous[j] != pressed[j])
    ensures Replay(previous, ButtonEvents(changed, pressed, n)) == pressed[..n] + previous[n..]
  {
    if n == 0 {
      assert previous[0..] == previous;
    } else {
      ReplayButtonEvents(previous, changed, pressed, n - 1);
      var before := ButtonEvents(changed, pressed, n - 1);
      var mid := pressed[..n - 1] + previous[n - 1..];
      SpliceOneMore(previous, pressed, n);
      if changed[n - 1] {
        var e := Host(NoGUIHost.MouseButtonEvent(n - 1, pressed[n - 1]));
        assert ButtonEvents(changed, pressed, n) == before + [e];
        ReplayOneMore(previous, before, e);
        assert ApplyButton(mid, e) == mid[n - 1 := pressed[n - 1]];
      } else {
        assert ButtonEvents(changed, pressed, n) == before + [] == before;
        assert mid[n - 1] == pressed[n - 1];
        assert mid[n - 1 := pressed[n - 1]] == mid;
      }
    }
  }

  /**
   * Replaying the events of a button message on the previous button states
   * gives the new ones: the events lose no change.
   */
  lemma ButtonEventsReplayToNewState(previous: bv32, buttons: bv32)
    ensures Replay(ButtonBits(previous), ButtonEvents(ButtonBits(previous ^ buttons), ButtonBits(buttons), BUTTON_COUNT))
            == ButtonBits(buttons)
  {
    ChangedButtons(previous, buttons);
    ReplayButtonEvents(ButtonBits(previous), ButtonBits(previous ^ buttons), ButtonBits(buttons), BUTTON_COUNT);
    assert ButtonBits(buttons)[..BUTTON_COUNT] == ButtonBits(buttons);
  }

  // ---------------------------------------------------------------------------
  // The window procedure and the message loop
  // ---------------------------------------------------------------------------

  /**
   * What WndProc does with one message while the platform's window is
   * `window` (0 when there is none) and the last button state is
   * `lastButtons`.
   */
  function HandleMessage(window: int, lastButtons: bv32, m: Msg): Handled
  {
    if m.hwnd != window && m.message != WM_FUNC then Handled(lastButtons, [DefWindowProc(m)])
    else if m.message == WM_SIZE then
      Handled(lastButtons, [Host(NoGUIHost.WindowResize(LowWord(m.lParam), HighWord(m.lParam)))])
    else if m.message == WM_KEYDOWN || m.message == WM_KEYUP then
      Handled(lastButtons, [Host(NoGUIHost.KeyEvent(Signed32(m.wParam), m.message == WM_KEYDOWN))])
    else if m.message == WM_MOUSEMOVE then
      Handled(lastButtons, [Host(NoGUIHost.MouseMoveEvent(Signed16(LowWord(m.lParam)), Signed16(HighWord(m.lParam))))])
    else if IsMouseButtonMessage(m.message) then
      var buttons := Dword(m.wParam);
      Handled(buttons, ButtonEvents(ButtonBits(lastButtons ^ buttons), ButtonBits(buttons), BUTTON_COUNT))
    else if m.message == WM_MOUSEWHEEL || m.message == WM_MOUSEHWHEEL then
      var d := Signed16(HighWord(m.wParam));
      Handled(lastButtons, [Host(NoGUIHost.MouseWheelEvent(if m.message == WM_MOUSEHWHEEL then d else 0,
                                                           if m.message == WM_MOUSEWHEEL then d else 0))])
    else if m.message == WM_CLOSE || m.message == WM_QUIT then Handled(lastButtons, [Host(NoGUIHost.ExitRequest)])
    else if m.message == WM_FUNC then Handled(lastButtons, if m.lParam != 0 then [RunFunction(m.lParam)] else [])
    else if m.message == WM_WAKEUP then Handled(lastButtons, [])
    else Handled(lastButtons, [DefWindowProc(m)])
  }

  /** The button case of HandleMessage, unfolded. */
  lemma ButtonMessageHandled(window: int, lastButtons: bv32, m: Msg)
    requires (m.hwnd == window || m.message == WM_FUNC) && IsMouseButtonMessage(m.message)
    ensures var b := Dword(m.wParam);
      HandleMessage(window, lastButtons, m) == Handled(b, ButtonEvents(ButtonBits(lastButtons ^ b), ButtonBits(b), BUTTON_COUNT))
  {
    assert m.message != WM_SIZE && m.message != WM_KEYDOWN && m.message != WM_KEYUP && m.message != WM_MOUSEMOVE;
  }

  /** Every message but a button message leaves the last button state alone. */
  lemma OtherMessageKeepsButtons(window: int, lastButtons: bv32, m: Msg)
    requires !IsMouseButtonMessage(m.message)
    ensures HandleMessage(window, lastButtons, m).lastMouseButtons == lastButtons
  {
  }

  /** Messages for another window go to DefWindowProc untouched, except WM_FUNC. */
  lemma ForeignWindowMessages(window: int, lastButtons: bv32, m: Msg)
    requires m.hwnd != window && m.message != WM_FUNC
    ensures HandleMessage(window, lastButtons, m) == Handled(lastButtons, [DefWindowProc(m)])
  {
  }

  /**
   * Key messages send the key code with pressed exactly for WM_KEYDOWN; a
   * size message sends the low word of lParam as the width and the high word
   * as the height.
   */
  lemma KeyAndSizeMessages(window: int, lastButtons: bv32, m: Msg)
    requires m.hwnd == window
    ensures m.message == WM_KEYDOWN || m.message == WM_KEYUP ==>
      HandleMessage(window, lastButtons, m).calls
      == [Host(NoGUIHost.KeyEvent(Signed32(m.wParam), m.message == WM_KEYDOWN))]
    ensures m.message == WM_SIZE ==>
      var r := HandleMessage(window, lastButtons, m).calls;
      && r == [Host(NoGUIHost.WindowResize(r[0].call.width, r[0].call.height))]
      && r[0].call.height * 0x1_0000 + r[0].call.width == m.lParam % 0x1_0000_0000
    ensures !IsMouseButtonMessage(m.message) ==> HandleMessage(window, lastButtons, m).lastMouseButtons == lastButtons
  {
    if m.message == WM_SIZE {
      var low := m.lParam % 0x1_0000_0000;
      assert LowWord(m.lParam) == LowWord(low) && HighWord(m.lParam) == HighWord(low) by {
        assert m.lParam == (m.lParam / 0x1_0000_0000) * 0x1_0000_0000 + low;
        assert m.lParam / 0x1_0000 == (m.lParam / 0x1_0000_0000) * 0x1_0000 + low / 0x1_0000;
      }
      WordsRecombine(low);
    }
  }

  /**
   * A button message leaves the new wParam as the last button state, and
   * its events, replayed on the old state, give the new one.
   */
  lemma MouseButtonMessages(window: int, lastButtons: bv32, m: Msg)
    requires m.hwnd == window && IsMouseButtonMessage(m.message)
    ensures var r := HandleMessage(window, lastButtons, m);
      && r.lastMouseButtons == Dword(m.wParam)
      && Replay(ButtonBits(lastButtons), r.calls) == ButtonBits(Dword(m.wParam))
  {
    var b := Dword(m.wParam);
    assert m.message != WM_SIZE && m.message != WM_KEYDOWN && m.message != WM_KEYUP && m.message != WM_MOUSEMOVE;
    assert HandleMessage(window, lastButtons, m)
           == Handled(b, ButtonEvents(ButtonBits(lastButtons ^ b), ButtonBits(b), BUTTON_COUNT));
    ButtonEventsReplayToNewState(lastButtons, b);
  }

  /** A posted function runs exactly once, whichever window the message names. */
  lemma PostedFunctionRuns(window: int, lastButtons: bv32, target: int, func: nat)
    requires func != 0
    ensures HandleMessage(window, lastButtons, Msg(target, WM_FUNC, 0, func))
            == Handled(lastButtons, [RunFunction(func)])
  {
  }

  /**
   * The message loop passes thread messages in the platform's own range
   * straight to WndProc and dispatches everything else.
   */
  predicate HandledDirectly(m: Msg)
  {
    m.hwnd == 0 && WM_FIRST <= m.message <= WM_LAST
  }

  /**
   * One turn of RunMessageLoop: GetMessageW yields false for WM_QUIT, and a
   * dispatched message reaches WndProc only when it names a window.
   */
  function PumpOne(window: int, lastButtons: bv32, m: Msg): Handled
  {
    if m.message == WM_QUIT then Handled(lastButtons, [])
    else if HandledDirectly(m) then HandleMessage(window, lastButtons, Msg(0, m.message, m.wParam, m.lParam))
    else if m.hwnd != 0 then HandleMessage(window, lastButtons, m)
    else Handled(lastButtons, [])
  }

  /** The messages of a queue pumped in order. */
  function PumpAll(window: int, lastButtons: bv32, queue: seq<Msg>): Handled
  {
    if queue == [] then Handled(lastButtons, [])
    else
      var before := PumpAll(window, lastButtons, queue[..|queue| - 1]);
      var last := PumpOne(window, before.lastMouseButtons, queue[|queue| - 1]);
      Handled(last.lastMouseButtons, before.calls + last.calls)
  }

  /** Pumping one more message continues from where the earlier ones left off. */
  lemma PumpAllStep(window: int, lastButtons: bv32, queue: seq<Msg>, m: Msg)
    ensures var before := PumpAll(window, lastButtons, queue);
      var last := PumpOne(window, before.lastMouseButtons, m);
      PumpAll(window, lastButtons, queue + [m]) == Handled(last.lastMouseButtons, before.calls + last.calls)
  {
    assert (queue + [m])[..|queue + [m]| - 1] == queue;
  }

  /** Pumping the first i + 1 messages of a queue continues from the first i. */
  lemma PumpPrefixStep(window: int, lastButtons: bv32, queue: seq<Msg>, i: nat)
    requires i < |queue|
    ensures var before := PumpAll(window, lastButtons, queue[..i]);
      var last := PumpOne(window, before.lastMouseButtons, queue[i]);
      PumpAll(window, lastButtons, queue[..i + 1]) == Handled(last.lastMouseButtons, before.calls + last.calls)
  {
    assert queue[..i + 1] == queue[..i] + [queue[i]];
    PumpAllStep(window, lastButtons, queue[..i], queue[i]);
  }

  /**
   * A function handed to ExecuteInMessageLoop runs when the loop reaches its
   * message, whether it was posted to the window or to the thread.
   */
  lemma ExecutedInMessageLoop(window: int, lastButtons: bv32, target: int, func: nat)
    requires func != 0
    ensures PumpOne(window, lastButtons, Msg(target, WM_FUNC, 0, func))
            == Handled(lastButtons, [RunFunction(func)])
  {
  }

  /** A window message never takes the direct path, so it goes through the routing check of WndProc. */
  lemma WindowMessagesAreDispatched(window: int, lastButtons: bv32, m: Msg)
    requires m.hwnd != 0 && m.message != WM_QUIT
    ensures PumpOne(window, lastButtons, m) == HandleMessage(window, lastButtons, m)
  {
  }

  // ---------------------------------------------------------------------------
  // Window styles
  // ---------------------------------------------------------------------------

  /** The style on entering fullscreen: windowed bits off, fullscreen bits on. */
  function EnterFullscreenStyle(style: bv32): (r: bv32)
    ensures r & FULLSCREEN_STYLE == FULLSCREEN_STYLE
    ensures r & (WINDOWED_STYLE & !FULLSCREEN_STYLE) == 0
  {
    (style & !WINDOWED_STYLE) | FULLSCREEN_STYLE
  }

  /** The style on leaving fullscreen: fullscreen bits off, windowed bits on. */
  function LeaveFullscreenStyle(style: bv32): (r: bv32)
    ensures r & WINDOWED_STYLE == WINDOWED_STYLE
    ensures r & (FULLSCREEN_STYLE & !WINDOWED_STYLE) == 0
  {
    (style & !FULLSCREEN_STYLE) | WINDOWED_STYLE
  }

  /** The extended style on leaving fullscreen: the windowed edges are added. */
  function LeaveFullscreenExStyle(exstyle: bv32): (r: bv32)
    ensures r & WINDOWED_EXSTYLE == WINDOWED_EXSTYLE
    ensures r & !WINDOWED_EXSTYLE == exstyle & !WINDOWED_EXSTYLE
  {
    exstyle | WINDOWED_EXSTYLE
  }

  /**
   * The extended style on entering fullscreen as the source computes it: from
   * the NEW window style, not from the extended style.
   */
  function EnterFullscreenExStyleAsWritten(newStyle: bv32): (r: bv32)
    ensures r & WINDOWED_EXSTYLE == 0
    ensures r & !WINDOWED_EXSTYLE == newStyle & !WINDOWED_EXSTYLE
  {
    newStyle & !WINDOWED_EXSTYLE
  }

  /** The extended style on entering fullscreen as intended: the windowed edges are removed. */
  function EnterFullscreenExStyle(exstyle: bv32): (r: bv32)
    ensures r & WINDOWED_EXSTYLE == 0
    ensures r & !WINDOWED_EXSTYLE == exstyle & !WINDOWED_EXSTYLE
  {
    exstyle & !WINDOWED_EXSTYLE
  }

  /**
   * As written, entering fullscreen from the windowed style with a client
   * edge and a window edge gives an extended style of 0x80000000 (the
   * WS_POPUP bit of the window style) instead of the window edge 0x100.
   */
  lemma ExStyleAsWrittenCopiesStyleBits()
    ensures EnterFullscreenExStyleAsWritten(EnterFullscreenStyle(WINDOWED_STYLE)) == 0x8000_0000
    ensures EnterFullscreenExStyle(0x300) == 0x100
  {
  }

  /**
   * As written, entering and then leaving fullscreen always leaves the
   * WS_POPUP bit set in the extended style, so an extended style without it
   * (the WS_EX_CLIENTEDGE of a created window, say) is never restored.
   */
  lemma ExStyleAsWrittenKeepsPopup(style: bv32, exstyle: bv32)
    ensures LeaveFullscreenExStyle(EnterFullscreenExStyleAsWritten(EnterFullscreenStyle(style))) & WS_POPUP == WS_POPUP
    ensures exstyle & WS_POPUP == 0 ==>
      LeaveFullscreenExStyle(EnterFullscreenExStyleAsWritten(EnterFullscreenStyle(style))) != exstyle
  {
  }

  /** A windowed style survives entering and leaving fullscreen unchanged. */
  lemma StyleRoundTrip(style: bv32)
    requires style & WINDOWED_STYLE == WINDOWED_STYLE && style & WS_POPUP == 0
    ensures LeaveFullscreenStyle(EnterFullscreenStyle(style)) == style
  {
  }

  /**
   * With the corrected rule a created window's extended style, the client
   * edge alone, comes back from fullscreen with all the windowed edges.
   */
  lemma CreatedExStyleRoundTrip()
    ensures LeaveFullscreenExStyle(EnterFullscreenExStyle(WS_EX_CLIENTEDGE)) == WINDOWED_EXSTYLE
    ensures WINDOWED_EXSTYLE == WS_EX_CLIENTEDGE | WS_EX_DLGMODALFRAME | WS_EX_STATICEDGE
  {
  }

  /** So does an extended style that already has the windowed edges. */
  lemma ExStyleRoundTrip(exstyle: bv32)
    requires exstyle & WINDOWED_EXSTYLE == WINDOWED_EXSTYLE
    ensures LeaveFullscreenExStyle(EnterFullscreenExStyle(exstyle)) == exstyle
  {
  }

  /** The window geometry requested at creation: the saved one, or default position and 1280x720. */
  function CreationGeometry(saved: Option<NoGUIHost.Geometry>): (g: NoGUIHost.Geometry)
    ensures saved.Some? ==> g == saved.value
    ensures saved.None? ==> g.x == CW_USEDEFAULT && g.y == CW_USEDEFAULT
                            && g.width == DEFAULT_WINDOW_WIDTH && g.height == DEFAULT_WINDOW_HEIGHT
  {
    if saved.Some? then saved.value
    else NoGUIHost.Geometry(CW_USEDEFAULT, CW_USEDEFAULT, DEFAULT_WINDOW_WIDTH, DEFAULT_WINDOW_HEIGHT)
  }

  /** The geometry GetWindowRect describes, as it is saved. */
  function RectGeometry(rc: Rect): (g: NoGUIHost.Geometry)
    ensures g.x + g.width == rc.right && g.y + g.height == rc.bottom
  {
    NoGUIHost.Geometry(rc.left, rc.top, rc.right - rc.left, rc.bottom - rc.top)
  }

  /** The size of the window surface: the rectangle's extent as an unsigned 32-bit value. */
  datatype WindowInfo = WindowInfo(surfaceWidth: nat, surfaceHeight: nat, window: int)

  // ---------------------------------------------------------------------------
  // The platform object
  // ---------------------------------------------------------------------------

  class Platform {
    var hwnd: int
    var fullscreen: bool
    var windowedRect: Rect
    var lastMouseButtons: bv32
    var windowThreadId: int
    var messageLoopRunning: bool
    /** The window's GWL_STYLE and GWL_EXSTYLE words. */
    var windowStyle: bv32
    var windowExStyle: bv32
    /** The thread's message queue. */
    var queue: seq<Msg>
    var calls: seq<Call>

    /** Construction followed by a successful Initialize on thread `threadId`. */
    constructor (threadId: int)
      ensures hwnd == 0 && !fullscreen && messageLoopRunning && windowThreadId == threadId
      ensures lastMouseButtons == 0 && queue == [] && calls == []
    {
      hwnd := 0;
      fullscreen := false;
      windowedRect := Rect(0, 0, 0, 0);
      lastMouseButtons := 0;
      windowThreadId := threadId;
      messageLoopRunning := true;
      windowStyle := 0;
      windowExStyle := 0;
      queue := [];
      calls := [];
    }

    /**
     * WndProc: routes one message and updates the last mouse-button state
     * for button messages.
     */
    method WndProc(m: Msg)
      modifies this`lastMouseButtons, this`calls
      ensures lastMouseButtons == HandleMessage(hwnd, old(lastMouseButtons), m).lastMouseButtons
      ensures calls == old(calls) + HandleMessage(hwnd, old(lastMouseButtons), m).calls
    {
      if m.hwnd != hwnd && m.message != WM_FUNC {
        calls := calls + [DefWindowProc(m)];
        return;
      }
      if IsMouseButtonMessage(m.message) {
        ButtonMessageHandled(hwnd, lastMouseButtons, m);
        MouseButtons(Dword(m.wParam));
      } else {
        OtherMessageKeepsButtons(hwnd, lastMouseButtons, m);
        OtherMessage(m);
      }
    }

    /** The cases of WndProc other than the button messages, for the platform's own window or posted work. */
    method OtherMessage(m: Msg)
      requires m.hwnd == hwnd || m.message == WM_FUNC
      requires !IsMouseButtonMessage(m.message)
      modifies this`calls
      ensures calls == old(calls) + HandleMessage(hwnd, lastMouseButtons, m).calls
    {
      if m.message == WM_SIZE {
        calls := calls + [Host(NoGUIHost.WindowResize(LowWord(m.lParam), HighWord(m.lParam)))];
      } else if m.message == WM_KEYDOWN || m.message == WM_KEYUP {
        var pressed := m.message == WM_KEYDOWN;
        calls := calls + [Host(NoGUIHost.KeyEvent(Signed32(m.wParam), pressed))];
      } else if m.message == WM_MOUSEMOVE {
        calls := calls + [Host(NoGUIHost.MouseMoveEvent(Signed16(LowWord(m.lParam)), Signed16(HighWord(m.lParam))))];
      } else if m.message == WM_MOUSEWHEEL || m.message == WM_MOUSEHWHEEL {
        var d := Signed16(HighWord(m.wParam));
        calls := calls + [Host(NoGUIHost.MouseWheelEvent(if m.message == WM_MOUSEHWHEEL then d else 0,
                                                         if m.message == WM_MOUSEWHEEL then d else 0))];
      } else if m.message == WM_CLOSE || m.message == WM_QUIT {
        calls := calls + [Host(NoGUIHost.ExitRequest)];
      } else if m.message == WM_FUNC {
        if m.lParam != 0 {
          calls := calls + [RunFunction(m.lParam)];
        }
      } else if m.message == WM_WAKEUP {
      } else {
        calls := calls + [DefWindowProc(m)];
      }
    }

    /** The button case of WndProc: the XOR with the last state, then one event per changed mask. */
    method MouseButtons(buttons: bv32)
      modifies this`lastMouseButtons, this`calls
      ensures lastMouseButtons == buttons
      ensures calls == old(calls)
                       + ButtonEvents(ButtonBits(old(lastMouseButtons) ^ buttons), ButtonBits(buttons), BUTTON_COUNT)
    {
      var changed := lastMouseButtons ^ buttons;
      lastMouseButtons := buttons;
      var i := 0;
      while i < BUTTON_COUNT
        invariant 0 <= i <= BUTTON_COUNT
        invariant lastMouseButtons == buttons
        invariant calls == old(calls) + ButtonEvents(ButtonBits(changed), ButtonBits(buttons), i)
      {
        ButtonBitAt(changed, i);
        ButtonBitAt(buttons, i);
        if changed & MASKS[i] != 0 {
          calls := calls + [Host(NoGUIHost.MouseButtonEvent(i, buttons & MASKS[i] != 0))];
        }
        i := i + 1;
      }
    }

    /**
     * RunMessageLoop while messages are queued: each is taken from the front
     * of the queue and pumped.
     */
    method RunMessageLoop()
      modifies this`lastMouseButtons, this`calls, this`queue
      ensures messageLoopRunning ==> queue == []
      ensures !messageLoopRunning ==> queue == old(queue)
      ensures var pumped := if messageLoopRunning then old(queue) else [];
        && lastMouseButtons == PumpAll(hwnd, old(lastMouseButtons), pumped).lastMouseButtons
        && calls == old(calls) + PumpAll(hwnd, old(lastMouseButtons), pumped).calls
    {
      ghost var pending := queue;
      ghost var i := 0;
      while messageLoopRunning && queue != []
        invariant 0 <= i <= |pending| && queue == pending[i..]
        invariant !messageLoopRunning ==> i == 0
        invariant lastMouseButtons == PumpAll(hwnd, old(lastMouseButtons), pending[..i]).lastMouseButtons
        invariant calls == old(calls) + PumpAll(hwnd, old(lastMouseButtons), pending[..i]).calls
        decreases |queue|
      {
        PumpNext(pending, i, old(lastMouseButtons), old(calls));
        i := i + 1;
      }
      assert pending[..|pending|] == pending;
    }

    /** One turn of RunMessageLoop: the front message of the queue is taken off and pumped. */
    method PumpNext(ghost pending: seq<Msg>, ghost i: nat, ghost startButtons: bv32, ghost startCalls: seq<Call>)
      requires i < |pending| && queue == pending[i..]
      requires lastMouseButtons == PumpAll(hwnd, startButtons, pending[..i]).lastMouseButtons
      requires calls == startCalls + PumpAll(hwnd, startButtons, pending[..i]).calls
      modifies this`lastMouseButtons, this`calls, this`queue
      ensures queue == pending[i + 1..]
      ensures lastMouseButtons == PumpAll(hwnd, startButtons, pending[..i + 1]).lastMouseButtons
      ensures calls == startCalls + PumpAll(hwnd, startButtons, pending[..i + 1]).calls
    {
      ghost var before := PumpAll(hwnd, startButtons, pending[..i]);
      var m := queue[0];
      assert m == pending[i];
      queue := queue[1..];
      PumpPrefixStep(hwnd, startButtons, pending, i);
      ghost var last := PumpOne(hwnd, before.lastMouseButtons, m);
      PumpMessage(m);
      assert calls == startCalls + (before.calls + last.calls);
    }

    /**
     * The body of RunMessageLoop for one message: WM_QUIT does nothing,
     * thread messages in the platform's range go straight to WndProc, and
     * other messages are dispatched to the window they name.
     */
    method PumpMessage(m: Msg)
      modifies this`lastMouseButtons, this`calls
      ensures lastMouseButtons == PumpOne(hwnd, old(lastMouseButtons), m).lastMouseButtons
      ensures calls == old(calls) + PumpOne(hwnd, old(lastMouseButtons), m).calls
    {
      if m.message == WM_QUIT {
      } else if m.hwnd == 0 && WM_FIRST <= m.message <= WM_LAST {
        WndProc(Msg(0, m.message, m.wParam, m.lParam));
      } else if m.hwnd != 0 {
        WndProc(m);
      }
    }

    /** ExecuteInMessageLoop: the function goes to the window if there is one, else to the thread. */
    method ExecuteInMessageLoop(func: nat)
      modifies this`queue
      ensures queue == old(queue) + [Msg(hwnd, WM_FUNC, 0, func)]
    {
      if hwnd != 0 {
        queue := queue + [Msg(hwnd, WM_FUNC, 0, func)];
      } else {
        queue := queue + [Msg(0, WM_FUNC, 0, func)];
      }
    }

    /** QuitMessageLoop: the loop stops, and a wake-up message unblocks it. */
    method QuitMessageLoop()
      modifies this`messageLoopRunning, this`queue
      ensures !messageLoopRunning
      ensures queue == old(queue) + [Msg(0, WM_WAKEUP, 0, 0)]
    {
      messageLoopRunning := false;
      queue := queue + [Msg(0, WM_WAKEUP, 0, 0)];
    }

    /**
     * SetFullscreen: nothing happens without a window, when the state is
     * already the requested one, or when the monitor or the window rectangle
     * cannot be found; the flag changes only at the end. Entering computes
     * the extended style from the new window style, as written (see
     * ExStyleAsWrittenKeepsPopup; EnterFullscreenExStyle is the intended rule).
     */
    method SetFullscreen(enabled: bool, monitor: Option<Rect>, currentRect: Option<Rect>)
      modifies this`fullscreen, this`windowedRect, this`windowStyle, this`windowExStyle, this`calls
      ensures var entering := enabled && monitor.Some? && currentRect.Some?;
        var changes := hwnd != 0 && old(fullscreen) != enabled && (entering || !enabled);
        && (!changes ==> fullscreen == old(fullscreen) && windowStyle == old(windowStyle)
                         && windowExStyle == old(windowExStyle) && calls == old(calls)
                         && windowedRect == old(windowedRect))
        && (changes && enabled ==>
              && fullscreen
              && windowedRect == currentRect.value
              && windowStyle == EnterFullscreenStyle(old(windowStyle))
              && windowExStyle == EnterFullscreenExStyleAsWritten(EnterFullscreenStyle(old(windowStyle)))
              && calls == old(calls) + [SetWindowPos(monitor.value)])
        && (changes && !enabled ==>
              && !fullscreen
              && windowedRect == old(windowedRect)
              && windowStyle == LeaveFullscreenStyle(old(windowStyle))
              && windowExStyle == LeaveFullscreenExStyle(old(windowExStyle))
              && calls == old(calls) + [SetWindowPos(old(windowedRect))])
    {
      if hwnd == 0 || fullscreen == enabled {
        return;
      }
      var style := windowStyle;
      var exstyle := windowExStyle;
      var rc;
      if enabled {
        if monitor.None? || currentRect.None? {
          return;
        }
        windowedRect := currentRect.value;
        style := EnterFullscreenStyle(style);
        exstyle := EnterFullscreenExStyleAsWritten(style);
        rc := monitor.value;
      } else {
        style := LeaveFullscreenStyle(style);
        exstyle := LeaveFullscreenExStyle(exstyle);
        rc := windowedRect;
      }
      windowStyle := style;
      windowExStyle := exstyle;
      calls := calls + [SetWindowPos(rc)];
      fullscreen := enabled;
    }

    /**
     * CreatePlatformWindow: the saved geometry or the defaults, a windowed
     * style with a client edge, and a fresh mouse-button state. `created` is
     * the handle CreateWindowExW returns (0 on failure).
     */
    method CreatePlatformWindow(saved: Option<NoGUIHost.Geometry>, created: int,
                                monitor: Option<Rect>, currentRect: Option<Rect>) returns (ok: bool)
      modifies this`hwnd, this`lastMouseButtons, this`windowStyle, this`windowExStyle, this`calls,
               this`fullscreen, this`windowedRect
      ensures ok <==> created != 0
      ensures !ok ==> calls == old(calls) + [CreateWindow(CreationGeometry(saved))]
                      && hwnd == old(hwnd) && lastMouseButtons == old(lastMouseButtons)
                      && windowStyle == old(windowStyle) && windowExStyle == old(windowExStyle)
      ensures ok ==> && calls == old(calls) + [CreateWindow(CreationGeometry(saved))]
                     && hwnd == created && lastMouseButtons == 0
                     && windowStyle == WINDOWED_STYLE && windowExStyle == WS_EX_CLIENTEDGE
      ensures fullscreen == old(fullscreen) && windowedRect == old(windowedRect)
    {
      var g := CreationGeometry(saved);
      calls := calls + [CreateWindow(g)];
      if created == 0 {
        return false;
      }
      windowStyle := WINDOWED_STYLE;
      windowExStyle := WS_EX_CLIENTEDGE;
      hwnd := created;
      lastMouseButtons := 0;
      if fullscreen {
        SetFullscreen(true, monitor, currentRect);
      }
      return true;
    }

    /**
     * DestroyPlatformWindow: with a window, saves its geometry unless
     * fullscreen (and GetWindowRect succeeds), destroys it and forgets it.
     */
    method DestroyPlatformWindow(currentRect: Option<Rect>)
      modifies this`hwnd, this`calls
      ensures old(hwnd) == 0 ==> hwnd == 0 && calls == old(calls)
      ensures old(hwnd) != 0 && !fullscreen && currentRect.Some? ==>
                calls == old(calls) + [SaveWindowGeometry(RectGeometry(currentRect.value)), DestroyWindow]
      ensures old(hwnd) != 0 && (fullscreen || currentRect.None?) ==> calls == old(calls) + [DestroyWindow]
      ensures hwnd == 0
    {
      if hwnd == 0 {
        return;
      }
      if !fullscreen && currentRect.Some? {
        calls := calls + [SaveWindowGeometry(RectGeometry(currentRect.value))];
      }
      calls := calls + [DestroyWindow];
      hwnd := 0;
    }

    /**
     * RequestRenderWindowSize: refused without a window, when fullscreen or
     * when the rectangle is unknown; otherwise the window keeps its position
     * and takes the new size, and the result is SetWindowPos's.
     */
    method RequestRenderWindowSize(width: int, height: int, currentRect: Option<Rect>, setPosOk: bool)
      returns (ok: bool)
      modifies this`calls
      ensures hwnd == 0 || fullscreen || currentRect.None? ==> !ok && calls == old(calls)
      ensures !(hwnd == 0 || fullscreen || currentRect.None?) ==>
                ok == setPosOk
                && calls == old(calls) + [SetWindowPos(Rect(currentRect.value.left, currentRect.value.top,
                                                            currentRect.value.left + width,
                                                            currentRect.value.top + height))]
    {
      if hwnd == 0 || fullscreen || currentRect.None? {
        return false;
      }
      var rc := currentRect.value;
      calls := calls + [SetWindowPos(Rect(rc.left, rc.top, rc.left + width, rc.top + height))];
      return setPosOk;
    }

    /** GetPlatformWindowInfo: nothing without a window, else the rectangle's size as unsigned values. */
    method GetPlatformWindowInfo(rc: Rect) returns (info: Option<WindowInfo>)
      ensures hwnd == 0 <==> info.None?
      ensures info.Some? ==> info.value.window == hwnd
                             && info.value.surfaceWidth == (rc.right - rc.left) % 0x1_0000_0000
                             && info.value.surfaceHeight == (rc.bottom - rc.top) % 0x1_0000_0000
    {
      if hwnd == 0 {
        return None;
      }
      return Some(WindowInfo((rc.right - rc.left) % 0x1_0000_0000, (rc.bottom - rc.top) % 0x1_0000_0000, hwnd));
    }

    /** SetPlatformWindowTitle: a no-op without a window. */
    method SetPlatformWindowTitle(title: string)
      modifies this`calls
      ensures hwnd == 0 ==> calls == old(calls)
      ensures hwnd != 0 ==> calls == old(calls) + [SetWindowText(title)]
    {
      if hwnd == 0 {
        return;
      }
      calls := calls + [SetWindowText(title)];
    }
  }
}
