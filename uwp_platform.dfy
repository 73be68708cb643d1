/**
 * The UWP (Xbox) platform layer of the no-GUI front end: the CoreWindow
 * event handlers that turn key, pointer, wheel, close and size events into
 * host calls, the three-button mouse state kept in an array, the guards for
 * a window or application view that does not exist yet, the key-name
 * conversions over the virtual-key table, the work handed to the
 * CoreDispatcher, and the default settings the UWP build writes.
 *
 * WinRT objects are not modelled: what they report (device type, button
 * states, key status, the result of TryResizeView, whether the process runs
 * on an Xbox) arrives as parameters, and what is asked of them is recorded
 * in the `calls` log.
 */
module UwpPlatform {
  import opened Wrappers
  import NoGUIHost
  import KeyNames

  // ---------------------------------------------------------------------------
  // Events and calls
  // ---------------------------------------------------------------------------

  /** PointerDeviceType of the device behind a pointer event. */
  datatype PointerDeviceType = Touch | Pen | Mouse

  /**
   * The PointerPoint of an event: its device, its position already scaled to
   * surface pixels, and the left, right and middle button states.
   */
  datatype PointerPoint = PointerPoint(device: PointerDeviceType, x: int, y: int,
                                       left: bool, right: bool, middle: bool)

  /** The KeyStatus of a key event. */
  datatype KeyStatus = KeyStatus(wasKeyDown: bool, isKeyReleased: bool)

  /** Work queued on the CoreDispatcher with RunAsync. */
  datatype Dispatched =
    | RunFunction(func: int)
    | ExitApplication
    | EnterFullScreen
    | LeaveFullScreen

  /** The launch windowing mode asked of the application view. */
  datatype WindowingMode = Auto | FullScreen

  /** What the platform asks of the host and of WinRT, in order. */
  datatype Call =
    | Host(call: NoGUIHost.HostCall)
    | ActivateWindow(mode: WindowingMode)
    | SetTitle(title: string)
    | TryResizeView(width: int, height: int)
    | RanFunction(func: int)
    | TryEnterFullScreenMode
    | ExitFullScreenMode
    | CreateDirectory(path: string)

  /** The window description handed to the GS: the surface size in pixels. */
  datatype WindowInfo = WindowInfo(surfaceWidth: int, surfaceHeight: int)

  /** Number of mouse buttons the platform tracks: left, right, middle. */
  const MOUSE_BUTTON_COUNT: nat := 3

  // ---------------------------------------------------------------------------
  // Mouse buttons
  // ---------------------------------------------------------------------------

  /** The states UpdateMouseButtonState reads, in the order it visits them. */
  function ButtonStates(point: PointerPoint): (s: seq<bool>)
    ensures |s| == MOUSE_BUTTON_COUNT
    ensures s[0] == point.left && s[1] == point.right && s[2] == point.middle
  {
    [point.left, point.right, point.middle]
  }

  /** The host call for a button's new state. */
  function ButtonCall(button: int, pressed: bool): Call
  {
    Host(NoGUIHost.MouseButtonEvent(button, pressed))
  }

  /**
   * The host calls UpdateMouseButtonState makes after visiting the first `n`
   * buttons, going from the stored states `last` to the new `states`.
   */
  function StateEvents(last: seq<bool>, states: seq<bool>, n: nat): seq<Call>
    requires n <= |last| == |states|
  {
    if n == 0 then []
    else StateEvents(last, states, n - 1)
         + (if last[n - 1] == states[n - 1] then [] else [ButtonCall(n, states[n - 1])])
  }

  /** The stored states after the host has been told about `calls`. */
  function ApplyButtonCalls(s: seq<bool>, calls: seq<Call>): (r: seq<bool>)
    ensures |r| == |s|
  {
    if calls == [] then s
    else
      var c := calls[|calls| - 1];
      var t := ApplyButtonCalls(s, calls[..|calls| - 1]);
      if c.Host? && c.call.MouseButtonEvent? && 1 <= c.call.button <= |t|
      then t[c.call.button - 1 := c.call.pressed]
      else t
  }

  /** `c` tells the host the new state of a button among the first `n` whose state changed. */
  predicate ReportsChange(last: seq<bool>, states: seq<bool>, n: nat, c: Call)
    requires n <= |last| == |states|
  {
    && c.Host? && c.call.MouseButtonEvent?
    && 1 <= c.call.button <= n
    && last[c.call.button - 1] != states[c.call.button - 1]
    && c.call.pressed == states[c.call.button - 1]
  }

  /** Each event is button j+1 with its new state, for an index j < n whose state changed. */
  lemma {:induction false} StateEventsSound(last: seq<bool>, states: seq<bool>, n: nat)
    requires n <= |last| == |states|
    ensures forall k :: 0 <= k < |StateEvents(last, states, n)| ==>
      ReportsChange(last, states, n, StateEvents(last, states, n)[k])
  {
    if n > 0 {
      StateEventsSound(last, states, n - 1);
      var e := StateEvents(last, states, n - 1);
      var r := StateEvents(last, states, n);
      assert r == e + [] || r == e + [ButtonCall(n, states[n - 1])];
      forall k | 0 <= k < |r|
        ensures ReportsChange(last, states, n, r[k])
      {
        if k < |e| {
          assert r[k] == e[k];
          assert ReportsChange(last, states, n - 1, e[k]);
        }
      }
    }
  }

  /** Every index j < n whose state changed has its event, button j+1 with the new state. */
  lemma {:induction false} StateEventsComplete(last: seq<bool>, states: seq<bool>, n: nat)
    requires n <= |last| == |states|
    ensures forall j :: 0 <= j < n && last[j] != states[j] ==> ButtonCall(j + 1, states[j]) in StateEvents(last, states, n)
  {
    if n > 0 {
      StateEventsComplete(last, states, n - 1);
      var e := StateEvents(last, states, n - 1);
      if last[n - 1] != states[n - 1] {
        assert StateEvents(last, states, n) == e + [ButtonCall(n, states[n - 1])];
      } else {
        assert StateEvents(last, states, n) == e + [] == e;
      }
    }
  }

  /** The button a call reports, 0 for any other call. */
  function ButtonOf(c: Call): int
  {
    if c.Host? && c.call.MouseButtonEvent? then c.call.button else 0
  }

  /** Events come in increasing button order: left, right, middle. */
  lemma {:induction false} StateEventsOrdered(last: seq<bool>, states: seq<bool>, n: nat)
    requires n <= |last| == |states|
    ensures forall k, k' :: 0 <= k < k' < |StateEvents(last, states, n)| ==>
      ButtonOf(StateEvents(last, states, n)[k]) < ButtonOf(StateEvents(last, states, n)[k'])
  {
    if n > 0 {
      StateEventsOrdered(last, states, n - 1);
      StateEventsSound(last, states, n - 1);
      var e := StateEvents(last, states, n - 1);
      if last[n - 1] != states[n - 1] {
        var r := e + [ButtonCall(n, states[n - 1])];
        assert StateEvents(last, states, n) == r;
        forall k, k' | 0 <= k < k' < |r|
          ensures ButtonOf(r[k]) < ButtonOf(r[k'])
        {
          assert r[k] == e[k];
          assert ReportsChange(last, states, n - 1, e[k]);
          if k' < |e| {
            assert r[k'] == e[k'];
          }
        }
      } else {
        assert StateEvents(last, states, n) == e + [] == e;
      }
    }
  }

  /** Telling the host one more call changes at most the state of its button. */
  lemma ApplyOneMore(s: seq<bool>, e: seq<Call>, c: Call)
    ensures ApplyButtonCalls(s, e + [c])
            == if c.Host? && c.call.MouseButtonEvent? && 1 <= c.call.button <= |s|
               then ApplyButtonCalls(s, e)[c.call.button - 1 := c.call.pressed]
               else ApplyButtonCalls(s, e)
  {
    assert (e + [c])[..|e + [c]| - 1] == e;
  }

  /** Taking one more new state into the stored ones. */
  lemma SpliceStep(last: seq<bool>, states: seq<bool>, n: nat)
    requires 0 < n <= |last| == |states|
    ensures (states[..n - 1] + last[n - 1..])[n - 1 := states[n - 1]] == states[..n] + last[n..]
    ensures last[n - 1] == states[n - 1] ==> states[..n - 1] + last[n - 1..] == states[..n] + last[n..]
  {
    var before := states[..n - 1] + last[n - 1..];
    var after := states[..n] + last[n..];
    assert |before| == |after|;
    assert forall i :: 0 <= i < |after| ==> after[i] == if i < n then states[i] else last[i];
    assert forall i :: 0 <= i < |before| ==> before[i] == if i < n - 1 then states[i] else last[i];
  }

  /** Replaying the events on the stored states gives the new states on the first `n` buttons. */
  lemma {:induction false} StateEventsReplay(last: seq<bool>, states: seq<bool>, n: nat)
    requires n <= |last| == |states|
    ensures ApplyButtonCalls(last, StateEvents(last, states, n)) == states[..n] + last[n..]
  {
    if n > 0 {
      StateEventsReplay(last, states, n - 1);
      var e := StateEvents(last, states, n - 1);
      SpliceStep(last, states, n);
      if last[n - 1] != states[n - 1] {
        var c := ButtonCall(n, states[n - 1]);
        assert StateEvents(last, states, n) == e + [c];
        ApplyOneMore(last, e, c);
      } else {
        assert StateEvents(last, states, n) == e + [] == e;
      }
    }
  }

  /** A point whose buttons match the stored states reports nothing. */
  lemma {:induction false} UnchangedStatesAreSilent(states: seq<bool>, n: nat)
    requires n <= |states|
    ensures StateEvents(states, states, n) == []
  {
    if n > 0 {
      UnchangedStatesAreSilent(states, n - 1);
    }
  }

  // ---------------------------------------------------------------------------
  // Keys and wheel
  // ---------------------------------------------------------------------------

  /** The key edge OnKeyDown reports: a fresh press, never an auto-repeat. */
  predicate ForwardsKeyDown(status: KeyStatus)
  {
    !status.wasKeyDown && !status.isKeyReleased
  }

  /** The key edge OnKeyUp reports: the release of a key that was down. */
  predicate ForwardsKeyUp(status: KeyStatus)
  {
    status.wasKeyDown && status.isKeyReleased
  }

  /**
   * Only transitions are forwarded: a reported press comes from a key that
   * was up, a reported release from a key that was down, and no status is
   * reported by both handlers.
   */
  lemma KeyEventsAreEdges(status: KeyStatus)
    ensures ForwardsKeyDown(status) ==> !status.wasKeyDown
    ensures ForwardsKeyUp(status) ==> status.wasKeyDown
    ensures !(ForwardsKeyDown(status) && ForwardsKeyUp(status))
    ensures status.wasKeyDown && !status.isKeyReleased ==> !ForwardsKeyDown(status) && !ForwardsKeyUp(status)
  {
  }

  /** The wheel axes OnPointerWheelChanged passes to the host, as written: `d` on both. */
  function WheelAxesAsWritten(d: int, horizontal: bool): (r: (int, int))
    ensures r.0 == r.1
    ensures r.0 != 0 <==> horizontal && d != 0
  {
    (if horizontal then d else 0, if horizontal then d else 0)
  }

  /** The wheel axes as evidently intended: the horizontal wheel on x, the vertical one on y. */
  function WheelAxes(d: int, horizontal: bool): (r: (int, int))
    ensures horizontal ==> r == (d, 0)
    ensures !horizontal ==> r == (0, d)
  {
    (if horizontal then d else 0, if horizontal then 0 else d)
  }

  /**
   * As written, a vertical wheel reaches the host as no update at all and a
   * horizontal one moves both axes; with the corrected axes each wheel moves
   * exactly its own axis.
   */
  lemma WheelAxesFinding(d: int)
    requires d != 0
    ensures var (x, y) := WheelAxesAsWritten(d, false); NoGUIHost.WheelUpdates(x, y) == []
    ensures var (x, y) := WheelAxesAsWritten(d, true);
      NoGUIHost.WheelUpdates(x, y) == [NoGUIHost.UpdatePointerDelta(NoGUIHost.WheelX, d), NoGUIHost.UpdatePointerDelta(NoGUIHost.WheelY, d)]
    ensures var (x, y) := WheelAxes(d, false); NoGUIHost.WheelUpdates(x, y) == [NoGUIHost.UpdatePointerDelta(NoGUIHost.WheelY, d)]
    ensures var (x, y) := WheelAxes(d, true); NoGUIHost.WheelUpdates(x, y) == [NoGUIHost.UpdatePointerDelta(NoGUIHost.WheelX, d)]
  {
  }

  // ---------------------------------------------------------------------------
  // Key-name conversions
  // ---------------------------------------------------------------------------

  const U32_LIMIT: nat := 0x1_0000_0000

  /** static_cast<VirtualKey> of a u32: VirtualKey is a 32-bit signed enumeration. */
  function ToVirtualKey(code: nat): (k: int)
    requires code < U32_LIMIT
    ensures -0x8000_0000 <= k < 0x8000_0000
    ensures (k - code) % U32_LIMIT == 0
  {
    if code < 0x8000_0000 then code else code - U32_LIMIT
  }

  /** ConvertHostKeyboardStringToCode: the table code of `str`, cast to u32. */
  function ConvertHostKeyboardStringToCode(str: string): (r: Option<nat>)
    ensures r.Some? <==> KeyNames.GetKeyCodeForName(str).Some?
    ensures r.Some? ==> r.value < U32_LIMIT
  {
    match KeyNames.GetKeyCodeForName(str)
    case None => None
    case Some(c) => Some(c % U32_LIMIT)
  }

  /** ConvertHostKeyboardCodeToString: the table name of the code, if it has one. */
  function ConvertHostKeyboardCodeToString(code: nat): (r: Option<string>)
    requires code < U32_LIMIT
    ensures r.Some? <==> KeyNames.GetKeyName(ToVirtualKey(code)).Some?
  {
    KeyNames.GetKeyName(ToVirtualKey(code))
  }

  /** Every code of the table lies between its first and its last, 1 and 254. */
  lemma ListedCodeRange(i: nat)
    requires i < KeyNames.TABLE_SIZE
    ensures 1 <= KeyNames.Listed(i).code <= 254
  {
    KeyNames.ListedCodesNonDecreasing(0, i);
    KeyNames.ListedCodesNonDecreasing(i, KeyNames.TABLE_SIZE - 1);
  }

  /** A code the table holds survives the casts to u32 and back unchanged. */
  lemma TableCodeInRange(name: string)
    requires KeyNames.GetKeyCodeForName(name).Some?
    ensures 1 <= KeyNames.GetKeyCodeForName(name).value <= 254
  {
    var c := KeyNames.GetKeyCodeForName(name).value;
    KeyNames.GetKeyCodeForNameSpec(name);
    var l := KeyNames.InitializerList();
    var i :| 0 <= i < |l| && l[i] == KeyNames.KeyEntry(c, name) && forall j :: 0 <= j < i ==> l[j].code != c;
    ListedCodeRange(i);
  }

  /** A table code is its own u32 and comes back from the cast to VirtualKey unchanged. */
  lemma TableCodeCasts(code: nat, k: int)
    requires code < U32_LIMIT && 1 <= k <= 254
    ensures k % U32_LIMIT == k && ToVirtualKey(k % U32_LIMIT) == k
    ensures ToVirtualKey(code) == k ==> code == k
  {
  }

  /** A name the platform converts to a code converts back to the same name. */
  lemma StringToCodeRoundTrip(str: string)
    ensures ConvertHostKeyboardStringToCode(str).Some? ==>
      ConvertHostKeyboardCodeToString(ConvertHostKeyboardStringToCode(str).value) == Some(str)
  {
    var r := KeyNames.GetKeyCodeForName(str);
    if r.Some? {
      TableCodeInRange(str);
      TableCodeCasts(0, r.value);
      KeyNames.CodeForNameRoundTrip(str);
    }
  }

  /** A code the platform names converts back from that name to the same code. */
  lemma CodeToStringRoundTrip(code: nat)
    requires code < U32_LIMIT
    ensures ConvertHostKeyboardCodeToString(code).Some? ==>
      ConvertHostKeyboardStringToCode(ConvertHostKeyboardCodeToString(code).value) == Some(code)
  {
    var k := ToVirtualKey(code);
    var r := KeyNames.GetKeyName(k);
    if r.Some? {
      KeyNames.NameForCodeRoundTrip(k);
      TableCodeInRange(r.value);
      TableCodeCasts(code, k);
    }
  }

  // ---------------------------------------------------------------------------
  // The dispatcher
  // ---------------------------------------------------------------------------

  /** How much of the dispatcher queue ProcessEvents(ProcessUntilQuit) runs before the exit request. */
  function UntilQuit(q: seq<Dispatched>): (n: nat)
    ensures n <= |q|
    ensures forall k :: 0 <= k < n ==> q[k] != ExitApplication
    ensures n < |q| ==> q[n] == ExitApplication
  {
    if q == [] || q[0] == ExitApplication then 0 else 1 + UntilQuit(q[1..])
  }

  /** What running one queued item asks of the application view or the program. */
  function Perform(d: Dispatched): seq<Call>
  {
    match d
    case RunFunction(f) => [RanFunction(f)]
    case EnterFullScreen => [TryEnterFullScreenMode]
    case LeaveFullScreen => [ExitFullScreenMode]
    case ExitApplication => []
  }

  /** What running a queue prefix asks for, item by item in queue order. */
  function PerformAll(q: seq<Dispatched>): seq<Call>
  {
    if q == [] then [] else PerformAll(q[..|q| - 1]) + Perform(q[|q| - 1])
  }

  /** Work queued after a quit request never runs in the same message loop. */
  lemma {:induction false} QuitStopsTheLoop(before: seq<Dispatched>, after: seq<Dispatched>)
    requires ExitApplication !in before
    ensures UntilQuit(before + [ExitApplication] + after) == |before|
  {
    if before != [] {
      assert (before + [ExitApplication] + after)[1..] == before[1..] + [ExitApplication] + after;
      QuitStopsTheLoop(before[1..], after);
    }
  }

  // ---------------------------------------------------------------------------
  // Default settings
  // ---------------------------------------------------------------------------

  /** The GS renderer the Xbox defaults select. */
  datatype Renderer = DX12

  datatype SettingValue = BoolValue(b: bool) | RendererValue(renderer: Renderer) | StringValue(s: string)

  /** One change SetDefaultConfig makes to the settings interface. */
  datatype SettingWrite =
    | SetValue(key: NoGUIHost.SettingKey, value: SettingValue)
    | AddToStringList(key: NoGUIHost.SettingKey, item: string)

  /** The first controller's DualShock 2 mapping onto XInput pad 0: control name and binding. */
  const PAD1_CONTROLS: seq<(string, string)> := [
    ("Type", "DualShock2"),
    ("Up", "XInput-0/DPadUp"),
    ("Right", "XInput-0/DPadRight"),
    ("Down", "XInput-0/DPadDown"),
    ("Left", "XInput-0/DPadLeft"),
    ("Triangle", "XInput-0/Y"),
    ("Circle", "XInput-0/B"),
    ("Cross", "XInput-0/A"),
    ("Square", "XInput-0/X"),
    ("Select", "XInput-0/Back"),
    ("Start", "XInput-0/Start"),
    ("L1", "XInput-0/LeftShoulder"),
    ("L2", "XInput-0/+LeftTrigger"),
    ("R1", "XInput-0/RightShoulder"),
    ("R2", "XInput-0/+RightTrigger"),
    ("L3", "XInput-0/LeftStick"),
    ("R3", "XInput-0/RightStick"),
    ("LUp", "XInput-0/-LeftY"),
    ("LRight", "XInput-0/+LeftX"),
    ("LDown", "XInput-0/+LeftY"),
    ("LLeft", "XInput-0/-LeftX"),
    ("RUp", "XInput-0/-RightY"),
    ("RRight", "XInput-0/+RightX"),
    ("RDown", "XInput-0/+RightY"),
    ("RLeft", "XInput-0/-RightX"),
    ("SmallMotor", "XInput-0/SmallMotor"),
    ("LargeMotor", "XInput-0/LargeMotor")
  ]

  /** The Pad1 writes, one per control, in source order. */
  function Pad1Bindings(): (w: seq<SettingWrite>)
    ensures |w| == |PAD1_CONTROLS|
    ensures forall k :: 0 <= k < |w| ==>
      w[k] == SetValue(NoGUIHost.SettingKey("Pad1", PAD1_CONTROLS[k].0), StringValue(PAD1_CONTROLS[k].1))
  {
    seq(|PAD1_CONTROLS|, k requires 0 <= k < |PAD1_CONTROLS| =>
      SetValue(NoGUIHost.SettingKey("Pad1", PAD1_CONTROLS[k].0), StringValue(PAD1_CONTROLS[k].1)))
  }

  const SDL_KEY := NoGUIHost.SettingKey("InputSources", "SDL")
  const XINPUT_KEY := NoGUIHost.SettingKey("InputSources", "XInput")
  const RECURSIVE_PATHS_KEY := NoGUIHost.SettingKey("GameList", "RecursivePaths")
  const RENDERER_KEY := NoGUIHost.SettingKey("EmuCore/GS", "Renderer")
  const VU_THREAD_KEY := NoGUIHost.SettingKey("EmuCore/Speedhacks", "vuThread")
  const PAUSE_MENU_KEY := NoGUIHost.SettingKey("Hotkeys", "OpenPauseMenu")

  /** The directory the UWP build scans for games: `games` under the data root. */
  function GamesDirectory(dataRoot: string): string
  {
    NoGUIHost.Combine(dataRoot, "games")
  }

  /** The writes of SetDefaultConfig, in order, for a data root and a device family. */
  function DefaultConfigWrites(dataRoot: string, onXbox: bool): seq<SettingWrite>
  {
    [ SetValue(SDL_KEY, BoolValue(false)),
      SetValue(XINPUT_KEY, BoolValue(true)),
      AddToStringList(RECURSIVE_PATHS_KEY, GamesDirectory(dataRoot)) ]
    + if onXbox then
        [ SetValue(RENDERER_KEY, RendererValue(DX12)),
          SetValue(VU_THREAD_KEY, BoolValue(true)) ]
        + Pad1Bindings()
        + [ SetValue(PAUSE_MENU_KEY, StringValue("XInput-0/Back & XInput-0/Start")) ]
      else []
  }

  /** The value a key holds after a sequence of writes: the last SetValue of the key wins. */
  function Written(w: seq<SettingWrite>, key: NoGUIHost.SettingKey): Option<SettingValue>
  {
    if w == [] then None
    else if w[|w| - 1].SetValue? && w[|w| - 1].key == key then Some(w[|w| - 1].value)
    else Written(w[..|w| - 1], key)
  }

  /** Writes to other keys leave a key's value alone. */
  lemma {:induction false} WrittenAfter(w1: seq<SettingWrite>, w2: seq<SettingWrite>, key: NoGUIHost.SettingKey)
    requires forall k :: 0 <= k < |w2| ==> w2[k].key != key
    ensures Written(w1 + w2, key) == Written(w1, key)
    decreases |w2|
  {
    if w2 != [] {
      var w2' := w2[..|w2| - 1];
      var x := w2[|w2| - 1];
      assert w1 + w2 == (w1 + w2') + [x];
      assert x.key != key;
      assert forall k :: 0 <= k < |w2'| ==> w2'[k] == w2[k];
      WrittenLast(w1 + w2', x, key);
      WrittenAfter(w1, w2', key);
    } else {
      assert w1 + w2 == w1;
    }
  }

  /** One more write: it decides the key's value if it sets that key. */
  lemma WrittenLast(w: seq<SettingWrite>, x: SettingWrite, key: NoGUIHost.SettingKey)
    ensures Written(w + [x], key) == if x.SetValue? && x.key == key then Some(x.value) else Written(w, key)
  {
    assert (w + [x])[..|w + [x]| - 1] == w;
  }

  /**
   * The defaults off an Xbox: SDL off, XInput on, the games directory
   * appended to the recursive search paths, and no other value.
   */
  lemma DefaultConfigOffXbox(dataRoot: string)
    ensures var w := DefaultConfigWrites(dataRoot, false);
      && |w| == 3
      && w[2] == AddToStringList(RECURSIVE_PATHS_KEY, GamesDirectory(dataRoot))
      && forall key: NoGUIHost.SettingKey :: Written(w, key) == if key == SDL_KEY then Some(BoolValue(false))
                                          else if key == XINPUT_KEY then Some(BoolValue(true))
                                          else None
  {
    var w := DefaultConfigWrites(dataRoot, false);
    assert w == [] + [w[0]] + [w[1]] + [w[2]];
    forall key: NoGUIHost.SettingKey
      ensures Written(w, key) == if key == SDL_KEY then Some(BoolValue(false))
                                 else if key == XINPUT_KEY then Some(BoolValue(true)) else None
    {
      WrittenLast([], w[0], key);
      WrittenLast([] + [w[0]], w[1], key);
      WrittenLast([] + [w[0]] + [w[1]], w[2], key);
    }
  }

  /** The Pad1 writes touch only the Pad1 section. */
  lemma Pad1KeysOnly(key: NoGUIHost.SettingKey)
    requires key.section != "Pad1"
    ensures forall k :: 0 <= k < |Pad1Bindings()| ==> Pad1Bindings()[k].key != key
  {
  }

  /**
   * The defaults on an Xbox: the same three writes first, then DX12, the VU
   * thread, every Pad1 binding and the pause-menu hotkey; outside the Pad1
   * section every other key keeps the value the common writes give it.
   */
  lemma DefaultConfigOnXbox(dataRoot: string)
    ensures var w := DefaultConfigWrites(dataRoot, true);
      && w[..3] == DefaultConfigWrites(dataRoot, false)
      && w[5..|w| - 1] == Pad1Bindings()
      && forall key: NoGUIHost.SettingKey | key.section != "Pad1" ::
           Written(w, key) == if key == PAUSE_MENU_KEY then Some(StringValue("XInput-0/Back & XInput-0/Start"))
                              else if key == VU_THREAD_KEY then Some(BoolValue(true))
                              else if key == RENDERER_KEY then Some(RendererValue(DX12))
                              else Written(DefaultConfigWrites(dataRoot, false), key)
  {
    var common := DefaultConfigWrites(dataRoot, false);
    var r := SetValue(RENDERER_KEY, RendererValue(DX12));
    var v := SetValue(VU_THREAD_KEY, BoolValue(true));
    var h := SetValue(PAUSE_MENU_KEY, StringValue("XInput-0/Back & XInput-0/Start"));
    var pads := Pad1Bindings();
    var w := DefaultConfigWrites(dataRoot, true);
    assert w == common + [r] + [v] + pads + [h];
    forall key: NoGUIHost.SettingKey | key.section != "Pad1"
      ensures Written(w, key) == if key == PAUSE_MENU_KEY then Some(h.value)
                                 else if key == VU_THREAD_KEY then Some(v.value)
                                 else if key == RENDERER_KEY then Some(r.value)
                                 else Written(common, key)
    {
      WrittenLast(common + [r] + [v] + pads, h, key);
      Pad1KeysOnly(key);
      WrittenAfter(common + [r] + [v], pads, key);
      WrittenLast(common + [r], v, key);
      WrittenLast(common, r, key);
    }
  }

  /** Every pad binding but the controller type names a control of XInput pad 0. */
  lemma PadBoundToFirstXInputPad()
    ensures forall k :: 1 <= k < |Pad1Bindings()| ==>
      && Pad1Bindings()[k].value.StringValue?
      && |Pad1Bindings()[k].value.s| > 9
      && Pad1Bindings()[k].value.s[..9] == "XInput-0/"
  {
  }

  // ---------------------------------------------------------------------------
  // The platform object
  // ---------------------------------------------------------------------------

  class Platform {
    /** Whether m_window, m_appview are set. */
    var hasWindow: bool
    var hasAppView: bool
    var windowInfo: WindowInfo
    /** m_last_mouse_state: left, right, middle. */
    var lastMouseState: array<bool>
    /** Work queued on the CoreDispatcher and not yet run. */
    var dispatcherQueue: seq<Dispatched>
    var calls: seq<Call>

    ghost predicate Valid()
      reads this
    {
      lastMouseState.Length == MOUSE_BUTTON_COUNT
    }

    /** Construction: no window, no view, every button up. */
    constructor ()
      ensures Valid() && fresh(lastMouseState)
      ensures !hasWindow && !hasAppView
      ensures lastMouseState[..] == [false, false, false]
      ensures dispatcherQueue == [] && calls == []
    {
      hasWindow := false;
      hasAppView := false;
      windowInfo := WindowInfo(0, 0);
      lastMouseState := new bool[MOUSE_BUTTON_COUNT](_ => false);
      dispatcherQueue := [];
      calls := [];
    }

    /** SetWindow: the CoreWindow (and with it the dispatcher) is known from now on. */
    method SetWindow()
      modifies this`hasWindow
      ensures hasWindow
    {
      hasWindow := true;
    }

    /**
     * UpdateMouseButtonState: visits left, right, middle; tells the host
     * about each button whose state changed and stores the new state.
     */
    method UpdateMouseButtonState(point: PointerPoint)
      requires Valid()
      modifies lastMouseState, this`calls
      ensures Valid()
      ensures lastMouseState[..] == ButtonStates(point)
      ensures calls == old(calls) + StateEvents(old(lastMouseState[..]), ButtonStates(point), MOUSE_BUTTON_COUNT)
    {
      var states := ButtonStates(point);
      ghost var last := lastMouseState[..];
      for i := 0 to MOUSE_BUTTON_COUNT
        invariant forall k :: 0 <= k < i ==> lastMouseState[k] == states[k]
        invariant forall k :: i <= k < MOUSE_BUTTON_COUNT ==> lastMouseState[k] == last[k]
        invariant calls == old(calls) + StateEvents(last, states, i)
      {
        if lastMouseState[i] == states[i] {
          continue;
        }
        calls := calls + [ButtonCall(i + 1, states[i])];
        lastMouseState[i] := states[i];
      }
      assert lastMouseState[..] == states;
    }

    /** OnKeyDown: forwards a fresh press; the event is always handled. */
    method OnKeyDown(virtualKey: int, status: KeyStatus) returns (handled: bool)
      modifies this`calls
      ensures handled
      ensures calls == old(calls) + if ForwardsKeyDown(status) then [Host(NoGUIHost.KeyEvent(virtualKey, true))] else []
    {
      if !status.wasKeyDown && !status.isKeyReleased {
        calls := calls + [Host(NoGUIHost.KeyEvent(virtualKey, true))];
      }
      handled := true;
    }

    /** OnKeyUp: forwards the release of a key that was down; the event is always handled. */
    method OnKeyUp(virtualKey: int, status: KeyStatus) returns (handled: bool)
      modifies this`calls
      ensures handled
      ensures calls == old(calls) + if ForwardsKeyUp(status) then [Host(NoGUIHost.KeyEvent(virtualKey, false))] else []
    {
      if status.wasKeyDown && status.isKeyReleased {
        calls := calls + [Host(NoGUIHost.KeyEvent(virtualKey, false))];
      }
      handled := true;
    }

    /**
     * OnPointerPressed, also registered for PointerReleased: only a mouse
     * updates the button state.
     */
    method OnPointerPressed(point: PointerPoint) returns (handled: bool)
      requires Valid()
      modifies lastMouseState, this`calls
      ensures Valid()
      ensures handled
      ensures point.device == Mouse ==> lastMouseState[..] == ButtonStates(point)
      ensures point.device != Mouse ==> lastMouseState[..] == old(lastMouseState[..]) && calls == old(calls)
      ensures calls == old(calls) + if point.device == Mouse
        then StateEvents(old(lastMouseState[..]), ButtonStates(point), MOUSE_BUTTON_COUNT) else []
    {
      if point.device == Mouse {
        UpdateMouseButtonState(point);
      }
      handled := true;
    }

    /** OnPointerReleased: the same filter and update as OnPointerPressed. */
    method OnPointerReleased(point: PointerPoint) returns (handled: bool)
      requires Valid()
      modifies lastMouseState, this`calls
      ensures Valid()
      ensures handled
      ensures point.device == Mouse ==> lastMouseState[..] == ButtonStates(point)
      ensures point.device != Mouse ==> lastMouseState[..] == old(lastMouseState[..]) && calls == old(calls)
      ensures calls == old(calls) + if point.device == Mouse
        then StateEvents(old(lastMouseState[..]), ButtonStates(point), MOUSE_BUTTON_COUNT) else []
    {
      if point.device == Mouse {
        UpdateMouseButtonState(point);
      }
      handled := true;
    }

    /** OnPointerMoved: for a mouse, the move first and then the button changes. */
    method OnPointerMoved(point: PointerPoint) returns (handled: bool)
      requires Valid()
      modifies lastMouseState, this`calls
      ensures Valid()
      ensures handled
      ensures point.device == Mouse ==> lastMouseState[..] == ButtonStates(point)
      ensures point.device != Mouse ==> lastMouseState[..] == old(lastMouseState[..]) && calls == old(calls)
      ensures calls == old(calls) + if point.device == Mouse
        then [Host(NoGUIHost.MouseMoveEvent(point.x, point.y))]
             + StateEvents(old(lastMouseState[..]), ButtonStates(point), MOUSE_BUTTON_COUNT)
        else []
    {
      if point.device == Mouse {
        calls := calls + [Host(NoGUIHost.MouseMoveEvent(point.x, point.y))];
        UpdateMouseButtonState(point);
      }
      handled := true;
    }

    /**
     * OnPointerWheelChanged, with the axes as written: a horizontal turn sends
     * its delta on both axes and a vertical one sends nothing on either (see
     * WheelAxesFinding; WheelAxes is the intended rule).
     */
    method OnPointerWheelChanged(delta: int, horizontal: bool) returns (handled: bool)
      modifies this`calls
      ensures handled
      ensures calls == old(calls) + [Host(NoGUIHost.MouseWheelEvent(WheelAxesAsWritten(delta, horizontal).0, WheelAxesAsWritten(delta, horizontal).1))]
    {
      var (x, y) := WheelAxesAsWritten(delta, horizontal);
      calls := calls + [Host(NoGUIHost.MouseWheelEvent(x, y))];
      handled := true;
    }

    /** OnClosed: closing the window asks the host to exit. */
    method OnClosed() returns (handled: bool)
      modifies this`calls
      ensures handled
      ensures calls == old(calls) + [Host(NoGUIHost.ExitRequest)]
    {
      calls := calls + [Host(NoGUIHost.ExitRequest)];
      handled := true;
    }

    /** OnSizeChanged: the new size goes to the host. */
    method OnSizeChanged(width: int, height: int)
      modifies this`calls
      ensures calls == old(calls) + [Host(NoGUIHost.WindowResize(width, height))]
    {
      calls := calls + [Host(NoGUIHost.WindowResize(width, height))];
    }

    /**
     * CreatePlatformWindow: the application view is set up and the window
     * activated only the first time; the surface size is taken every time.
     */
    method CreatePlatformWindow(startFullscreen: bool, surface: WindowInfo) returns (ok: bool)
      modifies this`hasAppView, this`windowInfo, this`calls
      ensures ok && hasAppView && windowInfo == surface
      ensures calls == old(calls) + if old(hasAppView) then []
        else [ActivateWindow(if startFullscreen then FullScreen else Auto)]
    {
      if !hasAppView {
        hasAppView := true;
        calls := calls + [ActivateWindow(if startFullscreen then FullScreen else Auto)];
      }
      windowInfo := surface;
      ok := true;
    }

    /** DestroyPlatformWindow: the window persists until exit. */
    method DestroyPlatformWindow()
    {
    }

    /** GetPlatformWindowInfo: none until the CoreWindow is known. */
    method GetPlatformWindowInfo() returns (r: Option<WindowInfo>)
      ensures r.Some? <==> hasWindow
      ensures r.Some? ==> r.value == windowInfo
    {
      r := if hasWindow then Some(windowInfo) else None;
    }

    /** SetPlatformWindowTitle: a no-op until the application view exists. */
    method SetPlatformWindowTitle(title: string)
      modifies this`calls
      ensures calls == old(calls) + if hasAppView then [SetTitle(title)] else []
    {
      if !hasAppView {
        return;
      }
      calls := calls + [SetTitle(title)];
    }

    /** RequestRenderWindowSize: false without an application view, else TryResizeView's answer. */
    method RequestRenderWindowSize(width: int, height: int, resized: bool) returns (ok: bool)
      modifies this`calls
      ensures ok <==> hasAppView && resized
      ensures calls == old(calls) + if hasAppView then [TryResizeView(width, height)] else []
    {
      if !hasAppView {
        return false;
      }
      calls := calls + [TryResizeView(width, height)];
      ok := resized;
    }

    /** ExecuteInMessageLoop: the function is queued on the dispatcher. */
    method ExecuteInMessageLoop(func: int)
      modifies this`dispatcherQueue
      ensures dispatcherQueue == old(dispatcherQueue) + [RunFunction(func)]
    {
      dispatcherQueue := dispatcherQueue + [RunFunction(func)];
    }

    /** QuitMessageLoop: an exit of the application is queued on the dispatcher. */
    method QuitMessageLoop()
      modifies this`dispatcherQueue
      ensures dispatcherQueue == old(dispatcherQueue) + [ExitApplication]
    {
      dispatcherQueue := dispatcherQueue + [ExitApplication];
    }

    /** SetFullscreen: the change of the view's mode is queued on the dispatcher. */
    method SetFullscreen(enabled: bool)
      modifies this`dispatcherQueue
      ensures dispatcherQueue == old(dispatcherQueue) + [if enabled then EnterFullScreen else LeaveFullScreen]
    {
      dispatcherQueue := dispatcherQueue + [if enabled then EnterFullScreen else LeaveFullScreen];
    }

    /**
     * RunMessageLoop: the dispatcher runs queued work in order up to the
     * first exit request, which ends the loop.
     */
    method RunMessageLoop()
      modifies this`dispatcherQueue, this`calls
      ensures var n := UntilQuit(old(dispatcherQueue));
        && calls == old(calls) + PerformAll(old(dispatcherQueue)[..n])
        && dispatcherQueue == if n < |old(dispatcherQueue)| then old(dispatcherQueue)[n + 1..] else []
    {
      var n := UntilQuit(dispatcherQueue);
      calls := calls + PerformAll(dispatcherQueue[..n]);
      dispatcherQueue := if n < |dispatcherQueue| then dispatcherQueue[n + 1..] else [];
    }

    /**
     * SetDefaultConfig: creates the games directory when it is missing and
     * returns the writes made to the settings interface.
     */
    method SetDefaultConfig(dataRoot: string, onXbox: bool, gamesDirectoryExists: bool) returns (writes: seq<SettingWrite>)
      modifies this`calls
      ensures calls == old(calls) + if gamesDirectoryExists then [] else [CreateDirectory(GamesDirectory(dataRoot))]
      ensures writes == DefaultConfigWrites(dataRoot, onXbox)
    {
      var gamesDir := GamesDirectory(dataRoot);
      if !gamesDirectoryExists {
        calls := calls + [CreateDirectory(gamesDir)];
      }
      writes := DefaultConfigWrites(dataRoot, onXbox);
    }
  }

  /**
   * Two updates with the same point: the second one reports nothing, and the
   * stored states are the point's buttons; replaying the first update's
   * events on the old states gives the same states.
   */
  lemma MouseStateSettles(last: seq<bool>, point: PointerPoint)
    requires |last| == MOUSE_BUTTON_COUNT
    ensures ApplyButtonCalls(last, StateEvents(last, ButtonStates(point), MOUSE_BUTTON_COUNT)) == ButtonStates(point)
    ensures StateEvents(ButtonStates(point), ButtonStates(point), MOUSE_BUTTON_COUNT) == []
  {
    StateEventsReplay(last, ButtonStates(point), MOUSE_BUTTON_COUNT);
    UnchangedStatesAreSilent(ButtonStates(point), MOUSE_BUTTON_COUNT);
  }
}
