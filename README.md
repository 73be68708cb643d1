# PCSX2 no-GUI front end and Windows host layer, modelled in Dafny

This project models the platform layer of the PCSX2 no-GUI front end (the
Win32 desktop build and the UWP/Xbox build), together with the Windows
virtual-memory helpers and the JIT unwind registry the emulator core relies on:

- **HostSys** (`host_sys.dfy`) models `common/Windows/WinHostSys.cpp`:
  - the translation of read/write/execute protection requests into Windows page-protection constants;
  - the commit, map, unmap and reprotect wrappers, with their desktop and UWP branches and their failure diagnostics;
  - the page-fault exception filter and its recursion guard.
- **UnwindRegistry** (`unwind_registry.dfy`) models the UWP JIT unwind-handler chain of the same file:
  - an append-only singly linked list of `UnwindHandler` records, reachable from `s_handler_head`/`s_handler_tail`;
  - the lookup callback, which finds the first record whose half-open code range holds a pc;
  - the installer, which registers the callback, links a new record and fills in its `RUNTIME_FUNCTION`, its `UNWIND_INFO` and its 12-byte `mov rax, imm64; jmp rax` trampoline.
- **CommandLine** (`command_line.dfy`) models `ParseCommandLineOptions` in `pcsx2-nogui/Main.cpp`. It is the argv loop, written as a method with a loop invariant, and it is proved equal to a recursive specification. The lemmas cover:
  - `-help`/`-version`;
  - flags and parameter options;
  - the `--` terminator;
  - positional arguments joined with single spaces;
  - the post-pass that drops empty boot parameters and batch mode.
- **KeyNames** (`key_names.dfy`) models the UWP virtual-key name table of `pcsx2-uwp/UWPKeyNames.h`:
  - the `std::map` is built from the 145-entry initializer list by insertion that keeps the first pair for each code;
  - code→name is looked up, and name→code is searched in key order;
  - the round trips hold in both directions;
  - the shadowing of "Hangul" and "Kanji" by "Kana" and "Hanja", which share their codes, is proved.
- **Win32Platform** (`win32_platform.dfy`) models `pcsx2-nogui/Win32NoGUIPlatform.cpp`:
  - the window procedure: the mouse-button XOR diff, key and size decoding, and routing;
  - the message loop over a queue of posted messages;
  - the fullscreen style arithmetic;
  - window creation, destruction and resize.
- **UwpPlatform** (`uwp_platform.dfy`) models `pcsx2-uwp/UWPNoGUIPlatform.cpp`:
  - the CoreWindow event handlers and the three-button edge detector over `m_last_mouse_state`;
  - the auto-repeat key filters and the pointer-device filter;
  - the key conversions over the key table;
  - the work posted to the CoreDispatcher;
  - the guards for a window or application view that does not exist yet;
  - the default settings the UWP build writes.
- **NoGUIHost** (`nogui_host.dfy`) models the decision logic of `pcsx2-nogui/NoGUIHost.cpp`:
  - the running, batch-mode, fullscreen and save-state flags;
  - the window title;
  - the saved window geometry;
  - the settings-version check;
  - the data-folder fallbacks.

Calls into Windows, WinRT, the VM manager, the file system and the settings
file are modelled as parameters (success/failure oracles and lookups).
The calls the model keeps are appended to a `calls` or `actions` log, and
each method states which of those calls it makes, in order. The calls
that are not logged are listed under "## Left out".

`ConvertToWinApi` (common/Windows/WinHostSys.cpp:63-81) can grant less
than was asked for. A request for write without read maps to
`PAGE_NOACCESS`, so write is lost. The model follows the code:
`HostSys.ConvertNoExecute` and `HostSys.ConvertGrantsRequested` state the
loss exactly.

## Model

| member | source | states |
|---|---|---|
| HostSys.ConvertToWinApi | common/Windows/WinHostSys.cpp:63-81 | The result is one of the five protection constants, and it grants execute exactly when execute was requested. |
| HostSys.ConvertExecute | common/Windows/WinHostSys.cpp:71-74 | With execute requested, the result is PAGE_EXECUTE_READWRITE when write is set and PAGE_EXECUTE_READ otherwise. The read bit makes no difference. |
| HostSys.ConvertNoExecute | common/Windows/WinHostSys.cpp:75-80 | Without execute: read+write gives PAGE_READWRITE and read alone gives PAGE_READONLY. No read gives PAGE_NOACCESS, even for a write-only request. |
| HostSys.ConvertGrantsRequested | common/Windows/WinHostSys.cpp:63-81 | Every requested permission is granted exactly when the request is not write-only. Write and execute are never granted unasked. Read is granted exactly when read or execute was asked for. |
| HostSys.CommitFailureEffects | common/Windows/WinHostSys.cpp:109-124 | After a failed commit: a dev failure exactly for errors other than the three memory errors, and one 1000 ms sleep exactly for ERROR_COMMITMENT_MINIMUM. |
| HostSys.MmapCommitOutcome | common/Windows/WinHostSys.cpp:92-125 | MmapCommitPtr succeeds exactly when the commit succeeds and, on UWP with execute, the reprotect succeeds too. It allocates once, first, and never retries. A failure carries the diagnostics above. A success carries neither a dev failure nor a sleep. |
| HostSys.UwpCommitProtection | common/Windows/WinHostSys.cpp:98-107 | On UWP the commit never asks for execute. With execute wanted, the range is reprotected to PAGE_EXECUTE_READWRITE even when write was not requested. The range is released exactly when that reprotect fails. |
| HostSys.MmapResult | common/Windows/WinHostSys.cpp:149-167 | A range Mmap returns was last protected PAGE_EXECUTE_READWRITE. On UWP the first commit is read-write only, and a null result after a successful allocation releases it. |
| HostSys.Munmap | common/Windows/WinHostSys.cpp:169-175 | A null base does nothing. Any other base releases the whole allocation (size 0, MEM_RELEASE). |
| HostSys.MemProtect | common/Windows/WinHostSys.cpp:177-192 | Callers must pass a size that is a multiple of the page size. The call reprotects with the converted constant and raises a dev failure exactly when the reprotect fails. |
| HostSys.FaultFilterDecision | common/Windows/WinHostSys.cpp:25-36 | Anything but an access violation gives CONTINUE_SEARCH, undispatched. An access violation is dispatched with its fault address and gives CONTINUE_EXECUTION exactly when it was handled. |
| HostSys.GuardedFilterSafe | common/Windows/WinHostSys.cpp:38-54 | The guarded filter continues execution only when the inner filter completed and did so. An access violation inside the filter yields CONTINUE_SEARCH. Any other exception escapes. |
| HostSys.UnwindHandlerAgreesWithFilter | common/Windows/WinHostSys.cpp:223-235 | The UWP unwind handler continues execution exactly when the vectored filter would, and returns exactly when the filter returns. |
| UnwindRegistry.Dword | common/Windows/WinHostSys.cpp:305-314 | static_cast<DWORD> yields a 32-bit value and leaves a value that already fits unchanged. |
| UnwindRegistry.LittleEndian | common/Windows/WinHostSys.cpp:324 | The copied pointer bytes are n values, each below 256. |
| UnwindRegistry.LittleEndianRoundTrip | common/Windows/WinHostSys.cpp:324 | Reading the copied bytes back little-endian gives the original address. |
| UnwindRegistry.Trampoline | common/Windows/WinHostSys.cpp:320-328 | The trampoline is 12 bytes, each below 256. |
| UnwindRegistry.TrampolineRoundTrip | common/Windows/WinHostSys.cpp:320-328 | Whatever follows it, the trampoline `48 B8 imm64 FF E0` decodes back to the handler address it was written with. |
| UnwindRegistry.FirstCovering | common/Windows/WinHostSys.cpp:237-246 | The specified lookup result is the first record in chain order with code_base <= pc < code_end. It is none exactly when no record covers pc. |
| UnwindRegistry.FirstCoveringAppend | common/Windows/WinHostSys.cpp:275-297 | Appending a record keeps every answer the old chain gave. A pc nothing covered before is answered by the new record exactly when it covers the pc. |
| UnwindRegistry.AppendLinked | common/Windows/WinHostSys.cpp:275-302 | Pointing the old tail at the new record and writing that record with a null next pointer yields a well-formed chain one record longer. An empty chain gets a chain of one. |
| UnwindRegistry.NewRecordLayout | common/Windows/WinHostSys.cpp:300-328 | The new record covers exactly [start, start + code_size), has a null next, BeginAddress 0 and EndAddress code_size, version 1 and UNW_FLAG_EHANDLER. The unwind-info and handler addresses are the record offset plus their offsetof. The code starts with `48 B8 <address> FF E0` and keeps its other bytes. |
| UnwindRegistry.Registry.constructor | common/Windows/WinHostSys.cpp:220-221 | The chain starts empty, with null head and tail. |
| UnwindRegistry.Registry.GetRuntimeFunctionCallback | common/Windows/WinHostSys.cpp:237-246 | The walk from the head returns the first covering record (FirstCovering), or null. |
| UnwindRegistry.Registry.LinkBehindTail | common/Windows/WinHostSys.cpp:280-297 | Failing to make the tail writable changes nothing. Otherwise the tail's next is set to the new record. Failing to make the tail executable again leaves the tail un-advanced and the chain broken. On success the tail moves to the new record. |
| UnwindRegistry.Registry.WriteRecord | common/Windows/WinHostSys.cpp:300-314 | Storing the new tail's record extends the well-formed chain by that record, and nothing else changes. |
| UnwindRegistry.Registry.AddToChain | common/Windows/WinHostSys.cpp:274-297 | An empty chain gets the record as head and tail. Otherwise the record is linked behind the tail, with the failure cases above. On success the chain is the old chain plus the record. |
| UnwindRegistry.Registry.Install | common/Windows/WinHostSys.cpp:248-338 | It succeeds exactly when every step succeeds. A failed callback registration changes nothing. A failed first reprotect leaves the chain as it was. After linking, the chain is the old one plus the new record, with the layout above. On success the record and the old tail are left PAGE_EXECUTE_READ. |
| UnwindRegistry.InstalledLookup | common/Windows/WinHostSys.cpp:237-246 | After an installation, the lookup gives the old answer for every pc the old chain covered. For any other pc it gives the new record exactly when the pc lies in the new code range. |
| CommandLine.AutoBoot | pcsx2-nogui/Main.cpp:63-69 | It returns the existing boot parameters, and creates default ones only if there are none. |
| CommandLine.ParseCommandLineOptions | pcsx2-nogui/Main.cpp:71-184 | The argv loop, which also skips consumed parameters, and the post-pass compute exactly the recursive specification ParseCommandLine. |
| CommandLine.ParseFromReadsSuffix | pcsx2-nogui/Main.cpp:75-163 | Parsing from argument i depends only on the arguments from i on. |
| CommandLine.ProgramNameIgnored | pcsx2-nogui/Main.cpp:75 | argv[0] is never interpreted: replacing it does not change the outcome. |
| CommandLine.UnknownOptionFails | pcsx2-nogui/Main.cpp:82-153 | Wherever the loop meets -help, -version, an unknown option or a parameter option given last, it stops with a failure and returns the state reached so far. |
| CommandLine.FailsAfterPlainRun | pcsx2-nogui/Main.cpp:77-153 | Such an argument fails the whole parse at any position, provided only ordinary arguments and flags come before it. |
| CommandLine.HelpOrVersionFails | pcsx2-nogui/Main.cpp:82-91 | -help or -version fails the command line at any position reached through ordinary arguments and flags. As the first argument it leaves no boot parameters and batch mode off. |
| CommandLine.AfterTerminator | pcsx2-nogui/Main.cpp:143-147 | After `--`, every remaining argument, including ones starting with '-', is appended to the filename, and the parse succeeds. |
| CommandLine.AppendAllAfter | pcsx2-nogui/Main.cpp:159-162 | Appending arguments to a non-empty filename adds exactly one space before each of them. |
| CommandLine.AppendAllJoins | pcsx2-nogui/Main.cpp:159-162 | When the first argument is not empty, appending to an empty filename joins the arguments with single spaces and no leading space. (After an empty first argument the source adds no separator.) |
| CommandLine.PositionalOnly | pcsx2-nogui/Main.cpp:159-162 | A command line of positional arguments only, the first of them not empty, succeeds with boot parameters whose filename is those arguments joined by single spaces, and with batch mode off. |
| CommandLine.PositionalRun | pcsx2-nogui/Main.cpp:159-162 | A run of non-option arguments is appended to the filename one by one, and the parse succeeds. |
| CommandLine.ParameterConsumed | pcsx2-nogui/Main.cpp:107-127 | -disc, -elf, -statefile and -state consume the next argument, whatever it looks like, set their field and resume after it. -disc also selects Disc and overwrites the filename. |
| CommandLine.FlagConsumedAlone | pcsx2-nogui/Main.cpp:92-142 | -batch turns batch mode on and -bios selects NoDisc. -fastboot/-slowboot and -fullscreen/-nofullscreen set their field. Each consumes only itself. |
| CommandLine.MissingParameterFails | pcsx2-nogui/Main.cpp:148-153 | A parameter option given as the last argument is an unknown option, and the parser fails. |
| CommandLine.LaterFlagWins | pcsx2-nogui/Main.cpp:97-141 | Once the loop meets a boot-speed flag (or a fullscreen flag), whatever earlier flags set in that field no longer matters: states that differ only there give the same outcome. |
| CommandLine.FlagOnlyAffectsItsField | pcsx2-nogui/Main.cpp:77-153 | A difference in one flag field, however it arose, is carried through the rest of the parse without changing success or any other field. With LaterFlagWins: the last flag of a field that the loop meets decides it, wherever it appears. |
| CommandLine.PostPassOutcome | pcsx2-nogui/Main.cpp:167-183 | When the loop runs out, the parser succeeds. It keeps the boot parameters exactly when they name a source, a file or an ELF. Batch mode survives only with boot parameters. |
| KeyNames.InitializerList | pcsx2-uwp/UWPKeyNames.h:30-175 | The initializer list has 145 pairs, and pair i is the i-th listed one. |
| KeyNames.InsertMembers | pcsx2-uwp/UWPKeyNames.h:30 | Map insertion keeps every stored pair and adds at most the inserted one. |
| KeyNames.InsertSorted | pcsx2-uwp/UWPKeyNames.h:30 | Map insertion keeps the codes strictly increasing. |
| KeyNames.InsertAddsNew | pcsx2-uwp/UWPKeyNames.h:30 | The inserted pair is stored exactly when its code was not yet present, or when it was already stored. |
| KeyNames.InsertSpec | pcsx2-uwp/UWPKeyNames.h:30 | Insertion stores the old pairs plus the new one exactly when its code is new, and stays sorted. |
| KeyNames.MapFromListFirsts | pcsx2-uwp/UWPKeyNames.h:30-175 | Building the map from a list stores exactly the first pair for each code, sorted by code. |
| KeyNames.FirstsCarryAllCodes | pcsx2-uwp/UWPKeyNames.h:30-175 | A map holding the first pair of each code holds every code of the list. |
| KeyNames.MapFromListSpec | pcsx2-uwp/UWPKeyNames.h:30-175 | The built map is sorted, holds exactly the first pair per code, and has the same set of codes as the list. |
| KeyNames.InsertKeepsFirst | pcsx2-uwp/UWPKeyNames.h:30 | A pair is first for its code in an extended list exactly when it was first before, or is the appended pair with a new code. |
| KeyNames.Find | pcsx2-uwp/UWPKeyNames.h:177-181 | map::find returns a stored name for the code, or nothing exactly when the code is absent. |
| KeyNames.FindName | pcsx2-uwp/UWPKeyNames.h:183-192 | The name search returns the code of a stored pair with exactly that name, or nothing exactly when no stored pair has it. |
| KeyNames.GetKeyNameSpec | pcsx2-uwp/UWPKeyNames.h:177-181 | GetKeyName finds a name exactly for the listed codes, and the name found is that of the first listed pair with the code. |
| KeyNames.GetKeyCodeForNameSpec | pcsx2-uwp/UWPKeyNames.h:183-192 | GetKeyCodeForName finds a code exactly when a stored pair carries the name (case-sensitive), and the pair found is stored. |
| KeyNames.CodeForNameRoundTrip | pcsx2-uwp/UWPKeyNames.h:177-192 | If GetKeyCodeForName(s) = k, then GetKeyName(k) = s. |
| KeyNames.FindInSorted | pcsx2-uwp/UWPKeyNames.h:177-181 | In a map with strictly increasing codes, find returns the name stored at that code. |
| KeyNames.FindNameDistinct | pcsx2-uwp/UWPKeyNames.h:183-192 | In a map with pairwise distinct names, the name search returns the code stored with that name. |
| KeyNames.NameForCodeRoundTrip | pcsx2-uwp/UWPKeyNames.h:177-192 | If GetKeyName(k) = s, then GetKeyCodeForName(s) = k. |
| KeyNames.ListedNamesDistinct | pcsx2-uwp/UWPKeyNames.h:30-175 | The 145 listed names are pairwise distinct. |
| KeyNames.EnterNotListed | pcsx2-uwp/UWPKeyNames.h:30-175 | No listed pair is named "Enter". |
| KeyNames.EnterIsNamedReturn | pcsx2-uwp/UWPKeyNames.h:40 | The Enter code 13 is named "Return". "Return" finds 13, and "Enter" finds nothing. |
| KeyNames.KeypadNames | pcsx2-uwp/UWPKeyNames.h:113-122 | Number-pad codes 96..105 are named "Keypad+0".."Keypad+9". |
| KeyNames.SharedCodeNamesListed | pcsx2-uwp/UWPKeyNames.h:47-51 | "Hangul" and "Kanji" are listed once each, at positions 16 and 20. |
| KeyNames.SharedCodeNamesShadowed | pcsx2-uwp/UWPKeyNames.h:30-175 | No pair stored in the map is named "Hangul" or "Kanji". |
| KeyNames.KanaKeptOverHangul | pcsx2-uwp/UWPKeyNames.h:46-47 | Code 21 keeps the first name, "Kana". "Hangul" is unreachable by name. |
| KeyNames.HanjaKeptOverKanji | pcsx2-uwp/UWPKeyNames.h:50-51 | Code 25 keeps the first name, "Hanja". "Kanji" is unreachable by name. |
| KeyNames.FirstByAscendingCodes | pcsx2-uwp/UWPKeyNames.h:30-175 | A listed pair whose code differs from its predecessor's is what GetKeyName returns for that code. |
| KeyNames.ListedCodesNonDecreasing | pcsx2-uwp/UWPKeyNames.h:30-175 | Codes never decrease along the initializer list. |
| KeyNames.ListedCodesAscending | pcsx2-uwp/UWPKeyNames.h:30-175 | Adjacent listed codes ascend, and are equal only at Kana/Hangul and Hanja/Kanji. |
| Win32Platform.LowWord | pcsx2-nogui/Win32NoGUIPlatform.cpp:276-277 | LOWORD is a 16-bit value. |
| Win32Platform.HighWord | pcsx2-nogui/Win32NoGUIPlatform.cpp:276-277 | HIWORD is a 16-bit value. |
| Win32Platform.WordsRecombine | pcsx2-nogui/Win32NoGUIPlatform.cpp:276-277 | HIWORD and LOWORD together give back the 32-bit value. |
| Win32Platform.Signed16 | pcsx2-nogui/Win32NoGUIPlatform.cpp:292-293 | The int16 reinterpretation is in range and congruent to the word modulo 2^16. |
| Win32Platform.Signed32 | pcsx2-nogui/Win32NoGUIPlatform.cpp:284-287 | The int32 truncation is in range and congruent to the value modulo 2^32. |
| Win32Platform.ChangedButtons | pcsx2-nogui/Win32NoGUIPlatform.cpp:307-309 | Bit j of the XOR is set exactly when button j changed. |
| Win32Platform.ButtonEventsExact | pcsx2-nogui/Win32NoGUIPlatform.cpp:310-316 | One event per changed button, with pressed equal to that button's new state. No event for an unchanged button. Events come in button order. |
| Win32Platform.ReplayButtonEvents | pcsx2-nogui/Win32NoGUIPlatform.cpp:310-316 | Replaying the events over the previous states gives the new states for the buttons visited. |
| Win32Platform.ButtonEventsReplayToNewState | pcsx2-nogui/Win32NoGUIPlatform.cpp:298-318 | Replaying one message's events over the previous five button states yields exactly the new wParam's states. |
| Win32Platform.ButtonMessageHandled | pcsx2-nogui/Win32NoGUIPlatform.cpp:298-318 | A mouse-button message stores wParam as the last buttons and emits the events of the XOR diff. |
| Win32Platform.OtherMessageKeepsButtons | pcsx2-nogui/Win32NoGUIPlatform.cpp:266-354 | Only mouse-button messages change the stored button state. |
| Win32Platform.ForeignWindowMessages | pcsx2-nogui/Win32NoGUIPlatform.cpp:269-270 | A message for another window, other than WM_FUNC, goes to DefWindowProc and changes nothing. |
| Win32Platform.KeyAndSizeMessages | pcsx2-nogui/Win32NoGUIPlatform.cpp:274-288 | WM_KEYDOWN/WM_KEYUP send the wParam code as pressed/released. WM_SIZE sends the low word of lParam as width and the high word as height. |
| Win32Platform.MouseButtonMessages | pcsx2-nogui/Win32NoGUIPlatform.cpp:298-318 | After a button message the stored buttons equal wParam, and its events take the old state to the new one. |
| Win32Platform.PostedFunctionRuns | pcsx2-nogui/Win32NoGUIPlatform.cpp:335-344 | WM_FUNC runs the posted function, whichever window it names. |
| Win32Platform.PumpAllStep | pcsx2-nogui/Win32NoGUIPlatform.cpp:182-201 | Pumping one more message continues from the state the earlier messages left. |
| Win32Platform.ExecutedInMessageLoop | pcsx2-nogui/Win32NoGUIPlatform.cpp:190-198 | A null-window WM_FUNC is routed straight to WndProc, which runs the function. |
| Win32Platform.WindowMessagesAreDispatched | pcsx2-nogui/Win32NoGUIPlatform.cpp:190-198 | A message for a window is dispatched to the window procedure. |
| Win32Platform.EnterFullscreenStyle | pcsx2-nogui/Win32NoGUIPlatform.cpp:237 | Entering fullscreen sets every fullscreen style bit and clears the windowed-only bits. |
| Win32Platform.LeaveFullscreenStyle | pcsx2-nogui/Win32NoGUIPlatform.cpp:243 | Leaving fullscreen sets every windowed style bit and clears the fullscreen-only bits. |
| Win32Platform.LeaveFullscreenExStyle | pcsx2-nogui/Win32NoGUIPlatform.cpp:244 | Leaving fullscreen sets the windowed extended bits and keeps every other extended bit. |
| Win32Platform.EnterFullscreenExStyle | pcsx2-nogui/Win32NoGUIPlatform.cpp:238 | The corrected rule: entering fullscreen clears the windowed extended bits and keeps every other extended bit. |
| Win32Platform.EnterFullscreenExStyleAsWritten | pcsx2-nogui/Win32NoGUIPlatform.cpp:237-238 | As written: the result clears the windowed extended bits and otherwise equals the new window style, not the old extended style. |
| Win32Platform.ExStyleAsWrittenKeepsPopup | pcsx2-nogui/Win32NoGUIPlatform.cpp:237-244 | As written, entering and then leaving fullscreen always leaves WS_POPUP set in the extended style, so an extended style without it (such as a created window's WS_EX_CLIENTEDGE) is never restored. |
| Win32Platform.ExStyleAsWrittenCopiesStyleBits | pcsx2-nogui/Win32NoGUIPlatform.cpp:238 | As written, the windowed style yields extended style 0x80000000, which is WS_POPUP copied from the style. The corrected rule turns 0x300 into 0x100. |
| Win32Platform.StyleRoundTrip | pcsx2-nogui/Win32NoGUIPlatform.cpp:237-243 | Entering and then leaving fullscreen restores a windowed style. |
| Win32Platform.ExStyleRoundTrip | pcsx2-nogui/Win32NoGUIPlatform.cpp:238-244 | With the corrected rule, entering and then leaving fullscreen restores an extended style that already carries all of WINDOWED_EXSTYLE. |
| Win32Platform.CreatedExStyleRoundTrip | pcsx2-nogui/Win32NoGUIPlatform.cpp:238-244 | With the corrected rule, a created window's WS_EX_CLIENTEDGE comes back from fullscreen as WS_EX_CLIENTEDGE, WS_EX_DLGMODALFRAME and WS_EX_STATICEDGE together, not as itself. |
| Win32Platform.CreationGeometry | pcsx2-nogui/Win32NoGUIPlatform.cpp:100-107 | Saved geometry is used as is. Without it, the position is CW_USEDEFAULT and the size 1280x720. |
| Win32Platform.RectGeometry | pcsx2-nogui/Win32NoGUIPlatform.cpp:136-139 | The saved geometry spans the window rectangle: x + width = right and y + height = bottom. |
| Win32Platform.Platform.constructor | pcsx2-nogui/Win32NoGUIPlatform.cpp:50-53 | No window, not fullscreen, message loop running, no buttons held, nothing queued. |
| Win32Platform.Platform.WndProc | pcsx2-nogui/Win32NoGUIPlatform.cpp:266-354 | It updates the stored buttons and the call log exactly as the routing and decoding of HandleMessage say. |
| Win32Platform.Platform.OtherMessage | pcsx2-nogui/Win32NoGUIPlatform.cpp:272-350 | A message other than a mouse-button message appends its routed calls and keeps the buttons. |
| Win32Platform.Platform.MouseButtons | pcsx2-nogui/Win32NoGUIPlatform.cpp:298-318 | The loop over the five masks emits the XOR-diff events and then stores wParam. |
| Win32Platform.Platform.RunMessageLoop | pcsx2-nogui/Win32NoGUIPlatform.cpp:182-201 | While the loop runs, the whole queue is pumped in order, with the effect of PumpAll: button state threaded through, calls concatenated. After a quit request nothing is pumped. |
| Win32Platform.Platform.PumpNext | pcsx2-nogui/Win32NoGUIPlatform.cpp:186-199 | One iteration takes the next queued message and extends the effect of the pumped prefix by that message. |
| Win32Platform.Platform.PumpMessage | pcsx2-nogui/Win32NoGUIPlatform.cpp:190-198 | A null-window message in the private range goes straight to WndProc. Anything else is dispatched. |
| Win32Platform.Platform.ExecuteInMessageLoop | pcsx2-nogui/Win32NoGUIPlatform.cpp:203-210 | It posts one WM_FUNC carrying the function, to the window if there is one. |
| Win32Platform.Platform.QuitMessageLoop | pcsx2-nogui/Win32NoGUIPlatform.cpp:212-216 | It clears the running flag and posts one WM_WAKEUP. |
| Win32Platform.Platform.SetFullscreen | pcsx2-nogui/Win32NoGUIPlatform.cpp:218-253 | Without a window, in the requested state already, or without monitor and window rectangles, nothing changes. Entering saves the windowed rectangle, applies the fullscreen style, computes the extended style from that new style as line 238 does, and covers the monitor. Leaving restores the windowed styles and rectangle. The flag changes only on the full path. |
| Win32Platform.Platform.CreatePlatformWindow | pcsx2-nogui/Win32NoGUIPlatform.cpp:98-128 | The window is created at the saved or default geometry. It succeeds exactly when a window was created, and then stores it, resets the buttons to 0 and sets the windowed styles. On failure the handle, the buttons and both style words are unchanged. The fullscreen state is unchanged. |
| Win32Platform.Platform.DestroyPlatformWindow | pcsx2-nogui/Win32NoGUIPlatform.cpp:130-143 | Without a window it does nothing. It saves the geometry only when not fullscreen, then destroys the window. The handle always ends null. |
| Win32Platform.Platform.RequestRenderWindowSize | pcsx2-nogui/Win32NoGUIPlatform.cpp:255-264 | Without a window, when fullscreen, or without a rectangle, it returns false and does nothing. Otherwise it resizes from the top-left corner and returns the resize result. |
| Win32Platform.Platform.GetPlatformWindowInfo | pcsx2-nogui/Win32NoGUIPlatform.cpp:145-160 | None exactly without a window. Otherwise the surface size is the window rectangle's width and height, cast to u32. |
| Win32Platform.Platform.SetPlatformWindowTitle | pcsx2-nogui/Win32NoGUIPlatform.cpp:162-168 | It sets the title only when a window exists. |
| UwpPlatform.ButtonStates | pcsx2-uwp/UWPNoGUIPlatform.cpp:206-209 | The states are visited in the order left, right, middle. |
| UwpPlatform.ApplyButtonCalls | pcsx2-uwp/UWPNoGUIPlatform.cpp:204-218 | Replaying button events keeps three states. |
| UwpPlatform.StateEventsSound | pcsx2-uwp/UWPNoGUIPlatform.cpp:210-217 | Every emitted event names a visited button i+1 whose state changed, with its new state. |
| UwpPlatform.StateEventsComplete | pcsx2-uwp/UWPNoGUIPlatform.cpp:210-217 | Every visited button whose state changed emits button i+1 with its new state. |
| UwpPlatform.StateEventsOrdered | pcsx2-uwp/UWPNoGUIPlatform.cpp:210-217 | Events come in button order. |
| UwpPlatform.StateEventsReplay | pcsx2-uwp/UWPNoGUIPlatform.cpp:210-217 | Replaying the events over the stored states gives the new states of the visited buttons. |
| UwpPlatform.UnchangedStatesAreSilent | pcsx2-uwp/UWPNoGUIPlatform.cpp:210-217 | Unchanged states emit nothing. |
| UwpPlatform.MouseStateSettles | pcsx2-uwp/UWPNoGUIPlatform.cpp:204-218 | The events take the stored states to the pointer's states, and a repeated identical pointer state is silent. |
| UwpPlatform.KeyEventsAreEdges | pcsx2-uwp/UWPNoGUIPlatform.cpp:137-153 | A press is forwarded only for a key that was up, and a release only for a key that was down. Never both. An auto-repeat forwards nothing. |
| UwpPlatform.WheelAxesAsWritten | pcsx2-uwp/UWPNoGUIPlatform.cpp:200 | As written, both axes receive the same value, which is non-zero only for a horizontal wheel. |
| UwpPlatform.WheelAxes | pcsx2-uwp/UWPNoGUIPlatform.cpp:193-202 | The corrected rule: a horizontal delta goes to x, a vertical one to y. |
| UwpPlatform.WheelAxesFinding | pcsx2-uwp/UWPNoGUIPlatform.cpp:200 | As written, a vertical wheel turn reaches the host as no update at all, and a horizontal one updates both axes. Corrected, each turn updates its own axis. |
| UwpPlatform.ToVirtualKey | pcsx2-uwp/UWPNoGUIPlatform.cpp:355-359 | static_cast<VirtualKey> of a u32 is the int32 congruent to it. |
| UwpPlatform.ConvertHostKeyboardStringToCode | pcsx2-uwp/UWPNoGUIPlatform.cpp:349-353 | It returns a code exactly when the table has the name, and the code fits a u32. |
| UwpPlatform.ConvertHostKeyboardCodeToString | pcsx2-uwp/UWPNoGUIPlatform.cpp:355-359 | It returns a name exactly when the table has the code. |
| UwpPlatform.ListedCodeRange | pcsx2-uwp/UWPKeyNames.h:30-175 | Every listed code lies in 1..254. |
| UwpPlatform.TableCodeInRange | pcsx2-uwp/UWPKeyNames.h:183-192 | A code found by name lies in 1..254, so the u32 casts do not change it. |
| UwpPlatform.StringToCodeRoundTrip | pcsx2-uwp/UWPNoGUIPlatform.cpp:349-359 | A name converted to a code converts back to the same name. |
| UwpPlatform.CodeToStringRoundTrip | pcsx2-uwp/UWPNoGUIPlatform.cpp:349-359 | A code converted to a name converts back to the same code. |
| UwpPlatform.UntilQuit | pcsx2-uwp/UWPNoGUIPlatform.cpp:361-374 | The dispatcher runs work up to the first exit request, which stops it. |
| UwpPlatform.QuitStopsTheLoop | pcsx2-uwp/UWPNoGUIPlatform.cpp:371-374 | Nothing queued after the first exit request runs. |
| UwpPlatform.Pad1Bindings | pcsx2-uwp/UWPNoGUIPlatform.cpp:246-272 | The Xbox pad profile writes one string per listed Pad1 control, in order. |
| UwpPlatform.WrittenAfter | pcsx2-uwp/UWPNoGUIPlatform.cpp:235-276 | Writes to other keys do not change a key's final value. |
| UwpPlatform.DefaultConfigOffXbox | pcsx2-uwp/UWPNoGUIPlatform.cpp:235-237 | Off Xbox the defaults are SDL off, XInput on and the games directory appended to RecursivePaths, and no other key is set. |
| UwpPlatform.Pad1KeysOnly | pcsx2-uwp/UWPNoGUIPlatform.cpp:246-272 | The pad profile writes only keys of section Pad1. |
| UwpPlatform.DefaultConfigOnXbox | pcsx2-uwp/UWPNoGUIPlatform.cpp:239-276 | On Xbox the same writes come first. Then the renderer is DX12, vuThread is on, the Pad1 profile is written and the pause-menu hotkey is Back & Start. No other key outside Pad1 differs from the off-Xbox result. |
| UwpPlatform.PadBoundToFirstXInputPad | pcsx2-uwp/UWPNoGUIPlatform.cpp:247-272 | Every Pad1 binding names the first XInput pad. |
| UwpPlatform.Platform.constructor | pcsx2-uwp/UWPNoGUIPlatform.h:87-92 | No window, no view, all three mouse buttons up. |
| UwpPlatform.Platform.SetWindow | pcsx2-uwp/UWPNoGUIPlatform.cpp:91-105 | From now on the window exists. |
| UwpPlatform.Platform.UpdateMouseButtonState | pcsx2-uwp/UWPNoGUIPlatform.cpp:204-218 | The loop over left, right and middle emits StateEvents, and afterwards the array holds the pointer's states. The three-button array invariant is kept. |
| UwpPlatform.Platform.OnKeyDown | pcsx2-uwp/UWPNoGUIPlatform.cpp:137-144 | It forwards a press only for a fresh key-down, and always marks the event handled. |
| UwpPlatform.Platform.OnKeyUp | pcsx2-uwp/UWPNoGUIPlatform.cpp:146-153 | It forwards a release only for a key that was down and is released, and always marks the event handled. |
| UwpPlatform.Platform.OnPointerPressed | pcsx2-uwp/UWPNoGUIPlatform.cpp:159-166 | Only a mouse updates the button state. Other devices change nothing. Always handled. |
| UwpPlatform.Platform.OnPointerReleased | pcsx2-uwp/UWPNoGUIPlatform.cpp:168-175 | Only a mouse updates the button state. Other devices change nothing. Always handled. |
| UwpPlatform.Platform.OnPointerMoved | pcsx2-uwp/UWPNoGUIPlatform.cpp:177-191 | Only a mouse sends the position and then updates the button state. Other devices change nothing. Always handled. |
| UwpPlatform.Platform.OnPointerWheelChanged | pcsx2-uwp/UWPNoGUIPlatform.cpp:193-202 | It sends one wheel event with the axes as line 200 writes them: the delta on both axes for a horizontal wheel, zero on both for a vertical one. Always handled. |
| UwpPlatform.Platform.OnClosed | pcsx2-uwp/UWPNoGUIPlatform.cpp:122-126 | Closing the window requests exit, and the event is handled. |
| UwpPlatform.Platform.OnSizeChanged | pcsx2-uwp/UWPNoGUIPlatform.cpp:128-135 | It forwards the new size to the host. |
| UwpPlatform.Platform.CreatePlatformWindow | pcsx2-uwp/UWPNoGUIPlatform.cpp:279-329 | The application view is fetched and the window activated, in fullscreen or auto mode, only the first time. It always succeeds and records the surface. |
| UwpPlatform.Platform.GetPlatformWindowInfo | pcsx2-uwp/UWPNoGUIPlatform.cpp:336-339 | None exactly without a window. Otherwise the recorded surface. |
| UwpPlatform.Platform.SetPlatformWindowTitle | pcsx2-uwp/UWPNoGUIPlatform.cpp:341-347 | It sets the title only when the application view exists. |
| UwpPlatform.Platform.RequestRenderWindowSize | pcsx2-uwp/UWPNoGUIPlatform.cpp:386-392 | Without a view, false and nothing asked. Otherwise it asks for the size and returns whether the view resized. |
| UwpPlatform.Platform.ExecuteInMessageLoop | pcsx2-uwp/UWPNoGUIPlatform.cpp:366-369 | It queues the function on the dispatcher. |
| UwpPlatform.Platform.QuitMessageLoop | pcsx2-uwp/UWPNoGUIPlatform.cpp:371-374 | It queues an exit request on the dispatcher. |
| UwpPlatform.Platform.SetFullscreen | pcsx2-uwp/UWPNoGUIPlatform.cpp:376-384 | It queues an enter- or leave-fullscreen request on the dispatcher. |
| UwpPlatform.Platform.RunMessageLoop | pcsx2-uwp/UWPNoGUIPlatform.cpp:361-364 | The dispatcher performs the queued work in order up to the first exit request. That request and everything before it leave the queue. |
| UwpPlatform.Platform.SetDefaultConfig | pcsx2-uwp/UWPNoGUIPlatform.cpp:228-277 | It creates the games directory only when missing, and writes exactly the defaults for the device (DefaultConfigWrites). |
| NoGUIHost.WheelUpdates | pcsx2-nogui/NoGUIHost.cpp:434-440 | Each non-zero wheel component becomes one relative update of its axis, horizontal first. A zero component gives none. |
| NoGUIHost.GetWindowTitle | pcsx2-nogui/NoGUIHost.cpp:813-823 | The game title when a valid VM has a non-empty one. Otherwise the application name and version plus the suffix. |
| NoGUIHost.WindowTitleNotEmpty | pcsx2-nogui/NoGUIHost.cpp:813-823 | The title is never empty when the application name is not. |
| NoGUIHost.SavedGeometry | pcsx2-nogui/NoGUIHost.cpp:457-466 | Geometry is found exactly when all four keys are present, and then it is their values. |
| NoGUIHost.Combine | pcsx2-nogui/NoGUIHost.cpp:145-166 | Path::Combine joins its parts with exactly one separator. |
| NoGUIHost.Host.constructor | pcsx2-nogui/NoGUIHost.cpp:106-109 | Not running, not batch, not fullscreen, no save on shutdown, no folders, nothing logged. |
| NoGUIHost.Host.InBatchMode | pcsx2-nogui/NoGUIHost.cpp:396-399 | It reports the batch flag. |
| NoGUIHost.Host.SetBatchMode | pcsx2-nogui/NoGUIHost.cpp:401-406 | It sets the flag and refreshes the game list only when batch mode is enabled. |
| NoGUIHost.Host.SetFullscreen | pcsx2-nogui/NoGUIHost.cpp:937-944 | It does nothing when already in the requested state. Otherwise it updates the flag and forwards the request to the platform exactly once. |
| NoGUIHost.Host.RequestExit | pcsx2-nogui/NoGUIHost.cpp:946-956 | It always stops running. Only with a valid VM does it set the save flag and request Stopping. |
| NoGUIHost.Host.RequestVMShutdown | pcsx2-nogui/NoGUIHost.cpp:958-965 | Only with a valid VM does it set the save flag and request Stopping. The running flag is kept. |
| NoGUIHost.Host.OnVMStarting | pcsx2-nogui/NoGUIHost.cpp:830-834 | It clears save-on-shutdown. |
| NoGUIHost.Host.GetSavedPlatformWindowGeometry | pcsx2-nogui/NoGUIHost.cpp:457-466 | It succeeds exactly when all four keys are present, returns their values, and reads keys only up to the first missing one. |
| NoGUIHost.Host.SavePlatformWindowGeometry | pcsx2-nogui/NoGUIHost.cpp:468-479 | When fullscreen it writes nothing. Otherwise it writes the four keys and saves. |
| NoGUIHost.Host.InitializeConfig | pcsx2-nogui/NoGUIHost.cpp:247-269 | It fails exactly when the folders could not be set. Defaults are written and saved exactly when the load failed or the version is missing or not 1. |
| NoGUIHost.Host.SetDefaultConfig | pcsx2-nogui/NoGUIHost.cpp:271-290 | It stores settings version 1 and writes the defaults. It does not save (the caller does) and makes no fullscreen request. |
| NoGUIHost.Host.SetDataDirectory | pcsx2-nogui/NoGUIHost.cpp:185-245 | Portable mode uses the program folder. Otherwise the folder is the UWP local folder or Documents/PCSX2, or else the previous data root. A folder that neither exists nor can be created is dropped, and an empty result falls back to the program folder. |
| NoGUIHost.Host.SetCriticalFolders | pcsx2-nogui/NoGUIHost.cpp:145-166 | The program folder, its resources subfolder and the data folder are set. An unset settings folder becomes DataRoot/inis. It succeeds exactly when the resources folder exists. |
| NoGUIHost.FullscreenRequestsSingle | pcsx2-nogui/NoGUIHost.cpp:937-944 | An action adds a fullscreen request to the log exactly when it is one. |
| NoGUIHost.KeysConsultedGeometry | pcsx2-nogui/NoGUIHost.cpp:461-465 | The four geometry reads stop at the first missing key. |
| NoGUIHost.KeysConsultedStopsAtFirstMissing | pcsx2-nogui/NoGUIHost.cpp:461-465 | The keys read are a prefix of the key list, all present except possibly the last, and the read stops only at a missing key. |
| NoGUIHost.GeometryRoundTrip | pcsx2-nogui/NoGUIHost.cpp:457-479 | Geometry that was saved is read back unchanged. |
| NoGUIHost.DefaultsAreStable | pcsx2-nogui/NoGUIHost.cpp:256-262 | Once defaults are written, a successful reload does not write them again. |
| NoGUIHost.DataDirectoryNotEmpty | pcsx2-nogui/NoGUIHost.cpp:243-244 | The data folder is never empty when the program folder is not. |
| NoGUIHost.DocumentsDataDirectory | pcsx2-nogui/NoGUIHost.cpp:185-245 | On the desktop, outside portable mode, with a Documents folder whose PCSX2 subfolder exists or can be created, the data folder is Documents/PCSX2. |

## Left out

- Linux and macOS branches are not modelled. Only the Windows and UWP code paths are.
- `MmapReservePtr`, `MmapResetPtr`, `MmapReserve`, `MmapCommit` and `MmapReset` (common/Windows/WinHostSys.cpp:83-146) are not modelled. They are single pass-through calls with no decision.
- The page-fault dispatcher (`Source_PageFault`, `PageFault_Mutex`) is a parameter `wasHandled`. The listener registry is not part of this model.
- VirtualAlloc, VirtualProtect, VirtualFree, RtlInstallFunctionTableCallback and GetLastError are success/failure oracles. Memory contents are modelled only as the `UnwindHandler` record fields.
- The page size (`__pagesize`) is a parameter of MemProtect.
- The non-AMD64 branch of the unwind installer (common/Windows/WinHostSys.cpp:316-318) is not modelled: the UWP build is x64.
- Console and log output are not modelled, except the warning logged when a commit fails with ERROR_COMMITMENT_MINIMUM (HostSys.Effect.Warning).
- These outside calls are not logged:
  - `MessageBoxW` on a failed window creation (pcsx2-nogui/Win32NoGUIPlatform.cpp:113);
  - `ShowWindow` and `UpdateWindow` (pcsx2-nogui/Win32NoGUIPlatform.cpp:118-119);
  - `SetWindowLongPtrW` (pcsx2-nogui/Win32NoGUIPlatform.cpp:248-249), whose values are the `windowStyle` and `windowExStyle` fields;
  - the `GetWindowRect`, `MonitorFromWindow` and `GetMonitorInfo` reads, whose results are parameters;
  - `CrashHandler::SetWriteDirectory` (pcsx2-nogui/NoGUIHost.cpp:156);
  - the `ReportError` for a missing resources folder (pcsx2-nogui/NoGUIHost.cpp:161), which is modelled only as the failed result;
  - `EmuFolders::LoadConfig`, `EmuFolders::EnsureFoldersExist` (which creates folders) and `Host::UpdateLogging` at the end of a successful InitializeConfig (pcsx2-nogui/NoGUIHost.cpp:265-267);
  - `UnregisterClassW` in the Win32 platform's destructor (pcsx2-nogui/Win32NoGUIPlatform.cpp:57).
- Win32Platform.Platform.PumpMessage does not model `TranslateMessage` (pcsx2-nogui/Win32NoGUIPlatform.cpp:196): the WM_CHAR messages it posts for key messages are never queued or pumped, so the model dispatches each message as it is.
- UnwindRegistry.Registry.Install does not cover the `pxAssertRel` checks on code placement and size (common/Windows/WinHostSys.cpp:262-264). They are preconditions of the model rather than checked failures.
- CommandLine: `std::atoi` is a parameter. `-batch` is modelled as setting the batch flag. The game-list refresh it triggers is modelled in NoGUIHost.Host.SetBatchMode.
- CommandLine: printing help and version, and `InitializeEarlyConsole`, are output only.
- `common/Windows/WinThreads.cpp` is not modelled: it wraps OS threads, handles, sleeping and CPU-time queries.
- The CPU-thread event queue of NoGUIHost.cpp, the game-list refresh thread and the signal handler are not modelled: they are concurrency.
- Display acquisition, ImGui, the VM manager and settings persistence are external. Settings are an integer map plus a log of writes. `HasValidVM`, INI loading and file-system results are parameters.
- NoGUIHost.Host.InitializeConfig takes the result of SetCriticalFolders as its `foldersOk` parameter instead of calling it.
- NoGUIHost.Combine models Path::Combine as a join with a single backslash. Separator normalisation is not modelled.
- `ShouldUsePortableMode` and `SetResourcesDirectory` (pcsx2-nogui/NoGUIHost.cpp:168-183) are not modelled as decisions: portable mode is a parameter and the resources folder is AppRoot/resources.
- Floating point is not modelled:
  - `GetWindowScale`;
  - the wheel scaling and clamping to [-1, 1] (pcsx2-nogui/Win32NoGUIPlatform.cpp:323, pcsx2-uwp/UWPNoGUIPlatform.cpp:199), so wheel deltas are kept as the raw signed value;
  - the UWP surface-scale and HDMI-mode arithmetic (pcsx2-uwp/UWPNoGUIPlatform.cpp:291-320), so the surface is a parameter;
  - the scaling of pointer coordinates, so positions arrive already in pixels.
- Win32 key-name conversions (pcsx2-nogui/Win32NoGUIPlatform.cpp:170-180): Win32KeyNames is not part of this model.
- Win32Platform: `WM_FIRST` is taken as `WM_USER + 1337`. The header that defines it is not part of this model. The routing lemmas depend only on WM_FUNC and WM_WAKEUP being the two private messages.
- Win32Platform: the styles Windows itself adds to a window are not modelled. Style words are the values the code reads and writes.
- Win32Platform.Platform.RunMessageLoop pumps a finite queue of already-posted messages. Blocking in GetMessage and the window being destroyed mid-loop are not modelled.
- Win32Platform: `Initialize` (window-class registration, pcsx2-nogui/Win32NoGUIPlatform.cpp:60-84) is not modelled. It is a single oracle call with no state beyond the class name.
- UwpPlatform: WinRT objects are not modelled. Device type, button states, key status, TryResizeView's answer and the Xbox check are parameters.
- UwpPlatform.Platform.OnClosed records the exit request in its call log. It does not call into NoGUIHost.Host.
- UwpPlatform: the `Run` start-up path (pcsx2-uwp/UWPNoGUIPlatform.cpp:74-89) and CoreDispatcher's `ProcessEvents` are modelled by UwpPlatform.Platform.RunMessageLoop over the queued work (UntilQuit).
- UwpPlatform: `OnSuspending`, `OnResuming`, `OnCharacterReceived`, `OnUnhandledErrorDetected` and `ReportError` are not modelled. They are empty or only show a dialog.
- UwpPlatform: the DX12 renderer value is symbolic (`RendererValue(DX12)`), because the enum's numeric value is not in the modelled sources.
- UwpPlatform: `AddToStringList` is a logged write. The list contents of the settings file are not modelled.
- UwpPlatform.Platform.DestroyPlatformWindow is a no-op and carries no contract.
- UwpPlatform.Platform.SetFullscreen queues the request. The dispatched handler uses the application view without checking it exists, and that case is not modelled.

## Findings

| source | as written | input that shows it | evidently intended | confidence | as-written member | corrected member |
|---|---|---|---|---|---|---|
| pcsx2-nogui/Win32NoGUIPlatform.cpp:238 | When entering fullscreen, the extended style is computed from the new window style (`style & ~WINDOWED_EXSTYLE`), not from the old extended style. | The windowed style with extended style 0x300 (WS_EX_CLIENTEDGE with WS_EX_WINDOWEDGE): the new extended style is 0x80000000 (WS_POPUP copied from the style) instead of 0x100. | `exstyle & ~WINDOWED_EXSTYLE`, which clears WS_EX_CLIENTEDGE and keeps the other extended bits, so that leaving fullscreen restores an extended style that already carries all of WINDOWED_EXSTYLE (a created window's WS_EX_CLIENTEDGE comes back with the other windowed edges added). | not executed | Win32Platform.ExStyleAsWrittenKeepsPopup | Win32Platform.ExStyleRoundTrip |
| pcsx2-uwp/UWPNoGUIPlatform.cpp:200 | Both wheel axes receive `horizontal ? d : 0`. | Any vertical wheel turn with d != 0 reaches the host as (0, 0), so no scroll update is made. A horizontal turn updates both axes. | x = horizontal ? d : 0 and y = horizontal ? 0 : d. | not executed | UwpPlatform.WheelAxesFinding | UwpPlatform.WheelAxes |

Win32Platform.Platform.SetFullscreen and UwpPlatform.Platform.OnPointerWheelChanged follow the code as written. The corrected rules (Win32Platform.EnterFullscreenExStyle and UwpPlatform.WheelAxes) are defined beside them, with their intended properties proved.
