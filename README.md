# wlgblock in Dafny

wlgblock locks a Wayland session with the `ext-session-lock-v1` protocol
and shows a Game Boy Color emulator (gbcc) on the lock surface. Reaching
the unlock condition inside the game releases the session: that is, the
byte 99 appears at address 0xDCC7 of emulator memory. Pressing ESC does
the same.

This project models the program's controlling logic in three modules:

- `Session` (session.dfy) covers the controlling thread of
  `src/wayland/main.c`:
  - the registry listener and the startup check that all four required
    globals were bound;
  - the lock, lock-surface and keyboard event handlers;
  - the render loop, with its memory poll and the timed two-phase unlock
    (fade-out, then release);
  - the guarded teardown.

  The handlers and the loop are classes (`Display`, `LockSurface`) whose
  methods update their fields as the C code does. Each method is proved
  equal to a pure specification function on a `LockState` value. The
  properties are proved about those functions. The requests whose order
  matters are appended to a log of `Call`s: the registry binds, the lock
  request, the surface creation, the configure acknowledgement, the EGL
  window and GL setup, the keyboard request, key forwarding, the draw,
  the unlock, the flushes, the emulator's wake-up and join, and the
  teardown calls. Ordering properties are statements about that log.
  Connecting, the registry request, listener registration, roundtrips,
  dispatches and the emulator memory read are not logged; what they
  deliver (events, a dispatch's success, the memory byte) is an input.
- `Window` (window.dfy) covers the integer logic of `src/window.c`:
  - the byte-order fix-up of the frame buffer;
  - integer scaling and centring;
  - shader lookup by name;
  - the message buffer and its line count;
  - the initialisation guard shared by every entry point;
  - the integer parts of `update_timers`.

  `GbccWindow` is a class whose texture buffer is an `array<bv32>`.
- `Emulation` (emulation.dfy) covers the emulation thread's batch loop
  (`gbcc_emulation_loop` in `src/gbcc.c`).

How inputs are modelled:

- **Wayland events:** a `seq<Event>` per roundtrip or dispatch.
- **Render-loop passes:** a `seq<Tick>`. Each `Tick` records whether the
  dispatch succeeded, the events delivered, the memory byte read and the
  measured elapsed time.
- **Foreign calls that can fail:** their outcomes are booleans
  (`windowOk`, `glOk`, `keyboard`).
- **Emulator faults:** a function from cycle number to `bool`.
- **The quit flag written by the other thread:** a function from batch
  number to `bool`.

## Model

| member | source | states |
|---|---|---|
| Emulation.Pairs | src/gbcc.c:34-41 | The calls of n cycles that did not fault: 2n calls, each cycle immediately followed by its audio update. |
| Emulation.EmulationLoop | src/gbcc.c:27-46 | Returns 0 with the quit flag set. Each cycle is followed by one audio update. Before the last cycle, no cycle faulted. On a fault the loop stops right after the faulting cycle, with no audio update, and the quit flag was clear at every boundary reached. Otherwise it ran whole batches of 1000 cycles and stopped at the first batch boundary where the quit flag read true. |
| Window.ByteSwap | src/window.c:429-435 | The masks and shifts of the fix-up loop reverse the four bytes of a pixel word. |
| Window.ByteSwapInvolution | src/window.c:429-435 | Swapping a pixel twice gives back the original pixel. |
| Window.SwapAll | src/window.c:429-435 | The fixed-up buffer has the same length, and each entry is the byte-reversed input pixel. |
| Window.SwapAllInvolution | src/window.c:429-435 | Fixing up a buffer twice restores it. |
| Window.IntegerScale | src/window.c:440-442 | The integer scale fits the 160x144 screen inside the surface, and it is the largest scale that does. |
| Window.Centre | src/window.c:445-446 | The offset leaves equal margins on both sides, up to one pixel. |
| Window.ScaledScreenCentred | src/window.c:440-446 | On both axes, the scaled screen at the computed offset lies inside the surface and is centred to within one pixel. |
| Window.SameIgnoringCase | src/window.c:528 | Has no ensures of its own: `strcasecmp(a, b) == 0` as a predicate (same length, same characters after ASCII lower-casing). `Window.SameIgnoringCaseEquivalence` states its properties and `Window.FindShader` uses it. |
| Window.SameIgnoringCaseEquivalence | src/window.c:528 | Case-insensitive name comparison is reflexive, symmetric and transitive. |
| Window.FindShader | src/window.c:525-531 | Returns the index of the first table name equal to the requested name ignoring case, or the table size when no name matches. |
| Window.CString | src/window.c:547-549 | The bytes a `const char *` designates: the longest NUL-free prefix of the byte string, followed in it by a NUL whenever it is shorter. |
| Window.NulFree | src/window.c:547-549 | A byte string without NUL is its own C string. |
| Window.CStringCut | src/window.c:547-549 | Bytes after a NUL never belong to the C string. |
| Window.MessageText | src/window.c:546-551 | The stored bytes are the message's C string, between two spaces when padded, cut to one byte less than the buffer size: a prefix of the padded C string, with no NUL in it, so `strlen` is its length. |
| Window.MessageTextFits | src/window.c:546-551 | A NUL-free message short enough for the buffer is stored whole, a padded one starts with a space, and bytes after a NUL in the message never reach the buffer. |
| Window.WidthTiles | src/window.c:552 | The number of glyphs per row is at least 1 and is the most that fit across 160 pixels. |
| Window.MessageLines | src/window.c:553 | The line count is a byte. It equals 1 + length / glyphs-per-row whenever that value fits in a byte. |
| Window.MessageLinesFit | src/window.c:552-553 | When the count fits, the rows before the last one are filled completely, and the last row holds the rest of the text. |
| Window.FrameAdvance | src/window.c:576-587 | For LY values inside a frame, whole frames times 154 plus the line difference equals the scanline distance between the two samples. The line difference is below 154 and is the LY difference modulo 154. |
| Window.CountDown | src/window.c:598-600 | A message timer that has run out is left unchanged. A running timer never increases when the elapsed time is non-negative. |
| Window.CountDownSettles | src/window.c:598-600 | Once the timer is zero or below, no sequence of later updates changes it. |
| Window.CountDownMonotone | src/window.c:598-600 | Over any run of updates with non-negative elapsed times, the timer never increases. |
| Window.GbccWindow.constructor | src/window.c:358-371 | The window starts initialised, with a zeroed buffer of 160x144 pixels, shader 0, an empty message and zeroed timers. |
| Window.GbccWindow.Deinitialise | src/window.c:374-381 | Clears the initialised flag and changes nothing else. When the window was not initialised, it changes nothing at all. |
| Window.GbccWindow.UseShader | src/window.c:518-537 | When initialised, selects the first shader whose name matches ignoring case. When no name matches, or when not initialised, the selection is kept. |
| Window.GbccWindow.ShowMessage | src/window.c:539-555 | When initialised, stores the truncated (padded) bytes, which contain no NUL, its byte-sized line count and a lifetime of `seconds` seconds in nanoseconds. When not initialised, the message state is untouched. |
| Window.GbccWindow.UpdateTimers | src/window.c:558-601 | Stores the progress sample at the ring index and advances the index modulo the ring size. Remembers the current frame and LY, and counts the message timer down. |
| Window.GbccWindow.Load | src/window.c:419 | The buffer holds a copy of the emulator's screen. |
| Window.GbccWindow.SwapBuffer | src/window.c:429-435 | The buffer becomes the byte-order fix-up of its old contents. |
| Window.GbccWindow.Place | src/window.c:440-446 | Sets the scale to the integer scale of the surface and the offsets to the centring offsets. |
| Window.GbccWindow.Update | src/window.c:405-450 | An uninitialised window is not changed. An initialised window updates its timers, holds the fixed-up copy of the screen, and is scaled and centred; the surface size, shader and message text are kept. |
| Session.KeyButton | src/wayland/main.c:218-242 | Exactly the eight listed key codes map to an emulator button. |
| Session.KeyButtonInjective | src/wayland/main.c:218-247 | No two keys share a button, and ESC is not a button key. |
| Session.HandleKey | src/wayland/main.c:210-250 | Has no ensures of its own: keyboard_key as a function on the lock state. `Session.KeyEffect` states its four cases, `Session.HandleStep` that it keeps the handler guarantees, and `Session.LockSurface.KeyboardKey` is proved equal to it. |
| Session.KeyEffect | src/wayland/main.c:210-250 | A mapped key forwards its button with its pressed state and nothing else. ESC raises should_quit on press only. Every other key has no effect. |
| Session.Announce | src/wayland/main.c:126-141 | Binds exactly the field named by the interface, at that interface's version, and keeps the other three. An unknown interface changes nothing. |
| Session.BindCalls | src/wayland/main.c:126-141 | The first roundtrip makes no request other than binds. |
| Session.BoundIffAdvertised | src/wayland/main.c:126-141 | After the first roundtrip, a global's field is set if and only if a global of that interface was advertised. |
| Session.GlobalsCompleteIff | src/wayland/main.c:286-291 | The startup check passes if and only if all four interfaces were advertised. |
| Session.Discover | src/wayland/main.c:282-291 | Connecting and the first roundtrip report completeness exactly when all four interfaces were advertised, and issue the binds in order. |
| Session.HandleConfigure | src/wayland/main.c:161-181 | Has no ensures of its own: surf_configure as a function returning the new state and whether it exited. `Session.ConfigureOrder` states its order and outcomes, and `Session.LockSurface.SurfConfigure` is proved equal to it. |
| Session.Handle | src/wayland/main.c:148-250 | Has no ensures of its own: the listener chosen by the event kind, with lock_finished as exit(1). `Session.HandleStep` states what every handler keeps, and `Session.LockSurface.HandleEvent` is proved equal to it. |
| Session.DispatchAll | src/wayland/main.c:300-318 | Has no ensures of its own: events handled in order until the first exit(1). `Session.DispatchStep` and `Session.DispatchFatalFinal` state its properties, and `Session.LockSurface.Dispatch` is proved equal to it. |
| Session.AnnounceAll | src/wayland/main.c:286 | Has no ensures of its own: the registry after the first roundtrip delivered the advertised globals in order. `Session.BoundIffAdvertised` and `Session.GlobalsCompleteIff` state its properties, and `Session.Display.Roundtrip` is proved equal to it. |
| Session.ConfigureOrder | src/wayland/main.c:161-181 | A configure event stores the size, then acknowledges the serial, then creates the EGL window, then sets up GL. It marks the surface configured exactly when both steps succeed; either failure exits. |
| Session.HandleStep | src/wayland/main.c:148-250 | No handler touches the running, quit or fade flags, withdraws a quit request or unconfigures the surface. No handler rewrites the log or releases the session, and every GL setup follows its acknowledgement. |
| Session.DispatchStep | src/wayland/main.c:148-250 | Any batch of dispatched events keeps those guarantees. |
| Session.DispatchFatalFinal | src/wayland/main.c:152-155 | After a handler calls exit(1), later events are never handled. |
| Session.Sequence | src/wayland/main.c:321-338 | Has no ensures of its own: the memory poll, the time accumulation, the fade and the unlock as a function of the state and the pass. `Session.PassEffect` and `Session.SequenceKeepsInv` state its behaviour, and `Session.LockSurface.Sequencer` is proved equal to it. |
| Session.Iterate | src/wayland/main.c:316-338 | Has no ensures of its own: one guarded pass of the main loop, leaving a stopped loop unchanged. `Session.PassEffect`, `Session.IterateKeepsInv` and `Session.IterateHead` state its properties, and `Session.LockSurface.Pass` is proved equal to it. |
| Session.RunLoop | src/wayland/main.c:316-339 | Has no ensures of its own: the render loop as a fold of `Session.Iterate` over the passes. `Session.RunLoopKeepsInv`, `Session.RunLoopHead`, `Session.RunLoopMonotone`, `Session.RunLoopStoppedFinal` and `Session.RunLoopHaltRunning` state its properties, and `Session.LockSurface.SessionLoop` is proved equal to it. |
| Session.LockPhase | src/wayland/main.c:293-307 | Has no ensures of its own: the lock request, the second roundtrip, the surface creation and the third roundtrip, stopping at an exit(1). `Session.LockPhaseStep` and `Session.LockPhaseStart` state its properties, and `Session.LockSurface.Lock` is proved equal to it. |
| Session.SessionRun | src/wayland/main.c:293-339 | Has no ensures of its own: the lock phase, then, unless a handler exited, the keyboard request and the render loop from time 0. `Session.SessionFacts` states its properties, and `Session.LockSurface.Run` is proved equal to it. |
| Session.PassEffect | src/wayland/main.c:316-338 | In one pass, a quit request from ESC or from the memory byte is latched and never cleared, and time advances only once quit is requested. Fade is raised exactly in [0.6, 1.3). The interval [1.3, 1.4) changes neither flag. From 1.4 the loop stops, the emulator is told to quit, and the session is released, between the draw and the flush. |
| Session.SequenceKeepsInv | src/wayland/main.c:319-336 | Drawing and the sequencer keep the loop invariant. Time stays 0 until a quit request. The session is released at most once: exactly when the loop stops running, and only at 1.4 or later. The emulator has been told to quit exactly when the loop stopped running. |
| Session.RunLoopKeepsInv | src/wayland/main.c:313-339 | Any run of passes keeps the loop invariant. |
| Session.RunLoopHead | src/wayland/main.c:313-339 | The loop only appends to the call log. |
| Session.RunLoopMonotone | src/wayland/main.c:325-338 | With non-negative measured times, time never decreases and a quit request is never withdrawn. |
| Session.RunLoopStoppedFinal | src/wayland/main.c:316 | A loop that has stopped ignores every later pass. |
| Session.DispatchFailedWitness | src/wayland/main.c:316 | The loop stops by a failed dispatch only if some pass's dispatch returned -1. |
| Session.LockPhaseStep | src/wayland/main.c:293-307 | The lock request, the surface creation and the two roundtrips touch none of the sequencer's flags, and they never release the session. |
| Session.LockPhaseStart | src/wayland/main.c:293-313 | The lock request is the first call. The loop invariant holds when the loop is entered. |
| Session.SessionFacts | src/wayland/main.c:293-339 | After the lock phase and the loop, the lock request is still first and the invariant holds. A loop halted by a failed dispatch or by exit(1) is still running, and a stop by failed dispatch has a failing pass as its witness. |
| Session.TeardownCalls | src/wayland/main.c:341-361 | Has no ensures of its own: the calls after the loop, each release guarded as in the source. `Session.TeardownShape`, `Session.TeardownJoinFirst`, `Session.TeardownEglOrder` and `Session.TeardownDisconnectLast` state its properties. |
| Session.TeardownShape | src/wayland/main.c:341-361 | The teardown begins with flush, semaphore post and join, and ends with disconnect. It destroys the EGL surface exactly when the surface was configured, and the keyboard exactly when the seat gave one. It never releases the session and never sets up GL. |
| Session.TeardownJoinFirst | src/wayland/main.c:344-359 | The emulator thread is joined before any graphics object is destroyed. The EGL window is destroyed before the Wayland surface. |
| Session.TeardownEglOrder | src/wayland/main.c:348-355 | EGL surface, then context, then display, then the EGL window. |
| Session.TeardownDisconnectLast | src/wayland/main.c:356-361 | The keyboard and the surface are destroyed before the connection is closed. |
| Session.TeardownAfter | src/wayland/main.c:341-363 | Appending the teardown keeps the log's guarantees and makes disconnect the last call. |
| Session.RunLocker | src/wayland/main.c:282-363 | A missing global exits with code 1 before any lock request, and the lock is requested if and only if all four interfaces were advertised. The exit codes are 0 and 1. Every GL setup follows a configure acknowledgement. The session is released at most once, and a released session always exits 0. A clean exit disconnects last, and without a release it needs both a failed dispatch and an emulator fault. A run blocked in pthread_join saw a failed dispatch, no fault and no release, and its last call is the join. |
| Session.LockedSession | src/wayland/main.c:293-363 | The part of main after the globals check is `SessionEnding`, and it has the same guarantees, with the lock request first. |
| Session.Shutdown | src/wayland/main.c:341-363 | Has no ensures of its own: main after the loop. The join returns only when `gbc->quit` was set by the release or by an emulator fault; otherwise the run ends blocked after flush, wake and join. `Session.EndingFacts` states its consequences. |
| Session.SessionEnding | src/wayland/main.c:293-363 | Has no ensures of its own: lock phase, loop, then exit(1), still running, or `Session.Shutdown`. `Session.EndingFacts` states its guarantees and `Session.LockedSession` is proved equal to it. |
| Session.RunSession | src/wayland/main.c:293-363 | The lock surface's run followed by the shutdown equals `SessionEnding`. |
| Session.ShutdownQuitFirst | src/wayland/main.c:341-361 | Has no ensures of its own: the intended shutdown, which sets `gbc->quit` before waking and joining the emulation thread. `Session.QuitFirstNeverBlocks` states its properties. |
| Session.SessionEndingQuitFirst | src/wayland/main.c:293-363 | Has no ensures of its own: main after the globals check with the corrected shutdown `Session.ShutdownQuitFirst`. `Session.QuitFirstNeverBlocks` states its properties. |
| Session.EndingFacts | src/wayland/main.c:293-363 | Every ending satisfies `EndingOk`: the guarantees listed for `Session.LockedSession`. |
| Session.RunLoopHaltRunning | src/wayland/main.c:316-333 | A loop halted by a failed dispatch or by exit(1) still has `running` set: only the release clears it. |
| Session.DispatchFailureBlocks | src/wayland/main.c:341-345 | With all globals present, no events and one pass whose dispatch fails, with no emulator fault, main blocks in pthread_join. |
| Session.QuitFirstNeverBlocks | src/wayland/main.c:341-363 | With `gbc->quit` set before the emulation thread is woken, no run blocks, every clean exit disconnects last, and every run the source does not block ends exactly as in the source. |
| Session.Display.RegistryGlobal | src/wayland/main.c:126-141 | The display's globals become `Announce` of the old ones, and the bind call is appended. |
| Session.Display.Roundtrip | src/wayland/main.c:286 | The display's globals become `AnnounceAll` over the advertised globals, in order. |
| Session.LockSurface.constructor | src/wayland/main.c:265-272 | The lock surface starts running and unconfigured, with no quit request and an empty log. |
| Session.LockSurface.KeyboardKey | src/wayland/main.c:210-250 | The new state is `HandleKey` of the old one. |
| Session.LockSurface.LockLocked | src/wayland/main.c:148-151 | Sets `locked` and nothing else. |
| Session.LockSurface.SurfConfigure | src/wayland/main.c:161-181 | The new state and the exit flag are `HandleConfigure` of the old state. |
| Session.LockSurface.HandleEvent | src/wayland/main.c:148-250 | The new state and the exit flag are `Handle` of the old state and the event. |
| Session.LockSurface.Dispatch | src/wayland/main.c:300 | The handlers run in order until one exits (`DispatchAll`). |
| Session.LockSurface.Lock | src/wayland/main.c:293-307 | The lock request, the second roundtrip, the surface creation and the third roundtrip equal `LockPhase`. |
| Session.LockSurface.Sequencer | src/wayland/main.c:321-338 | The memory poll, the fade and the unlock equal `Sequence`. |
| Session.LockSurface.Pass | src/wayland/main.c:316-338 | One pass equals `Iterate`. |
| Session.LockSurface.SessionLoop | src/wayland/main.c:313-339 | The whole loop equals `RunLoop` from time 0. |
| Session.LockSurface.Run | src/wayland/main.c:293-339 | The lock phase, the keyboard request and the loop equal `SessionRun`. |

## Left out

- OpenGL and EGL are not modelled: shader compilation, textures, rendering, the banner and fade-out programs. `setup_gl` (src/wayland/main.c:74-122) is a single `SetupGl` call whose success is an input.
- Floating-point arithmetic is not modelled:
  - fractional scaling (src/window.c:438-439);
  - the fps average;
  - the audio scale filter;
  - the conversion of `dt` to nanoseconds.

  The message countdown takes the elapsed nanoseconds as an integer input. Loop times are `real`s, not `double`s.
- Clocks are not modelled: `clock()`, `clock_gettime` and `usleep` become the measured elapsed time in each `Tick`, which stands for the processor time of the pass as `clock()` measures it (`usleep` adds no processor time). The sequencer's `time` is the sum of these, including the pass measured just before the quit request.
- Threads are not modelled: the vsync semaphore, `pthread_create`/`pthread_join` scheduling, and the data race on `gbc->quit`. The emulation loop reads the flag through an input function. In main, whether the emulation thread stops on a fault by the time the join would return (before or after the wake-up at src/wayland/main.c:344) is the input `faulted`; the join returns only when that holds or the sequencer set the flag.
- Argument parsing, audio initialisation and the emulator core are external calls and are not modelled.
- The sizes of the shader table, `MSG_BUF_SIZE`, the font's tile width and the fps ring are parameters of the window constructor. The headers that define them (constants.h, window.h, time_diff.h) are not part of this model.
- Window.GbccWindow.UpdateTimers: the frame counter is an unbounded natural, so the wrap-around of the 64-bit counter is not modelled. The progress sample is an integer frame and line pair, not the floating-point rate the source stores.
- Window.FrameAdvance: the frames and lines relation is stated only when both LY values are below 154, the only values the hardware produces.
- Window.GbccWindow.ShowMessage: `seconds * SECOND` is computed without overflow, because the width of SECOND is defined in time_diff.h, which is not part of this model.
- Session.RunLocker: the main loop runs over a finite sequence of passes; when the passes run out while still locked, the outcome is `StillRunning`.
- Session.RunLocker: globals advertised after the first roundtrip are ignored.
- Session.RunLocker: `wl_display_connect` and the lock surface's `wl_surface` are assumed to succeed.
- Session.LockSurface.HandleEvent: events may arrive in any dispatch, not only after their listener is added. Key events may come before the keyboard listener (src/wayland/main.c:311), and configure events may come in the roundtrip after the lock request (src/wayland/main.c:300), before the lock-surface listener exists (src/wayland/main.c:304). The model therefore allows more behaviours than the program has.
- Session.LockSurface.SurfConfigure: a second configure event is handled again, as in the source. The earlier EGL window is leaked by the source, and the model does not track leaks.
- Session.PassEffect: the fade cutoff inside the draw is not modelled. `render_fadeout` (src/window.c:239-241) clears `gbc->animating` once its own accumulated time passes 5 seconds, but the model's `Draw` leaves the flag alone. The fade-flag clauses of PassEffect therefore describe only the sequencer (src/wayland/main.c:325-334), not the whole pass: in the model no pass ever clears the flag.
- Window.GbccWindow.constructor: the shader names are a parameter, although `gbcc_window_initialise` zeroes the whole window (src/window.c:361) and nothing in window.c fills the names again, so in this source the lookup at src/window.c:528 compares against null names. The model describes the lookup for a filled table.
- Emulation.EmulationLoop: the run in which the other thread never sets `gbc->quit` and no cycle faults does not terminate in the source. The precondition `quitAt(stop)` excludes exactly that run; values of the flag after a fault are never read, so no terminating run is excluded.

## Findings

| source | as written | input that shows it | evidently intended | confidence | as-written member | corrected member |
|---|---|---|---|---|---|---|
| src/wayland/main.c:341-345 | After a failed `wl_display_dispatch` the loop ends with `gbc->quit` still false; `sem_post` wakes the emulation thread, which resumes `while (!gbc->quit)` (src/gbcc.c:30), and `pthread_join` never returns. | all four globals, no events in the two roundtrips, one pass whose dispatch fails, no emulator fault | the emulation thread is told to quit before it is woken and joined, so main tears down and exits whatever ended the loop | high for the hang given the cited lines; not executed | Session.DispatchFailureBlocks | Session.QuitFirstNeverBlocks |

The rest of the model keeps the behaviour as written (`Session.RunLocker`, `Session.LockedSession`, `Session.Shutdown`); the corrected shutdown is `Session.ShutdownQuitFirst`, and `Session.QuitFirstNeverBlocks` proves it never blocks and agrees with the source on every run the source completes.

## Design notes

- The fade flag is raised for `time` in [0.6, 1.3) and the session is released from 1.4 (src/wayland/main.c:327-329). In [1.3, 1.4) neither happens. The model uses these constants from the code.
- The session is released in the loop, before the emulator thread is woken and joined (src/wayland/main.c:332 then 344-345).
- `lock_finished` and both failure paths of `surf_configure` call `exit(1)`. The model reports these as `Exit(1)` with no teardown.
- When `wl_display_dispatch` returns -1, the loop ends without releasing the session and without setting `gbc->quit`. The post at src/wayland/main.c:344 wakes the emulation thread, which resumes its batch loop, so the join at line 345 returns only if the emulator has faulted; otherwise main blocks for ever (see Findings). `RunLocker` proves that a failed dispatch together with an emulator fault is the only way to exit 0 without a release.
- The teardown releases EGL objects in the order surface, context, display, EGL window. Each release is guarded. Outside the exit(1) paths, every EGL handle is set exactly when the surface was configured, so one flag stands for all four guards.
- The missing-globals check returns 1 while the emulation thread is already running; the model records no teardown on that path.
