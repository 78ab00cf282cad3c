/** The session locker's controlling thread (src/wayland/main.c): the
    Wayland event handlers, the startup check of the required globals, the
    render loop with its timed two-phase unlock, and the guarded teardown.
    The requests whose order matters are recorded as `Call`s in a log, in
    the order the source makes them: the binds, the lock request, the
    surface creation, the configure acknowledgement, the EGL window and GL
    setup, the keyboard request, key forwarding, the draw, the unlock, the
    flushes, the emulator's wake-up and join, and the teardown. Connecting,
    the registry request, listener registration, roundtrips, dispatches and
    the emulator memory read are not logged: their effects are the inputs
    (the events delivered, a dispatch's success, the byte read). The
    outcome of a foreign call that can fail is an input too. */
module Session {

  datatype Option<T> = None | Some(value: T)

  // ---------------------------------------------------------------------
  // Constants of the source

  /** Linux key code of ESC, and the value of WL_KEYBOARD_KEY_STATE_PRESSED. */
  const EscKey: nat := 1
  const KeyStatePressed: nat := 1

  /** The value of the emulator memory byte at 0xDCC7, polled every tick,
      that requests the unlock. */
  const UnlockByte: nat := 99

  /** Unlock timing, against the accumulated `elapsed_time`: the processor
      time of each pass as measured by `clock()`, summed from the pass
      measured just before the quit request. The fade-out flag is raised in
      [FadeStart, FadeEnd), the session is released from UnlockAt. */
  const FadeStart: real := 0.6
  const FadeEnd: real := 1.3
  const UnlockAt: real := 1.4

  // ---------------------------------------------------------------------
  // Keyboard

  /** The eight emulator buttons. */
  datatype Button = A | B | Start | Select | Up | Down | Left | Right

  /** The key table of keyboard_key: Linux key codes bound to buttons. */
  function KeyButton(key: nat): (b: Option<Button>)
    ensures b.Some? <==> key in {44, 45, 28, 57, 103, 108, 105, 106}
  {
    match key
    case 44 => Some(A)
    case 45 => Some(B)
    case 28 => Some(Start)
    case 57 => Some(Select)
    case 103 => Some(Up)
    case 108 => Some(Down)
    case 105 => Some(Left)
    case 106 => Some(Right)
    case _ => None
  }

  /** Each button has exactly one key, and ESC is not one of them. */
  lemma KeyButtonInjective(k1: nat, k2: nat)
    ensures KeyButton(k1).Some? && KeyButton(k1) == KeyButton(k2) ==> k1 == k2
    ensures KeyButton(EscKey) == None
  {
  }

  // ---------------------------------------------------------------------
  // Requests made to collaborators

  /** The four globals the locker binds. */
  datatype Role = LockManager | Compositor | Seat | Output

  /** A bound global: its registry name and the version asked for. */
  datatype Proxy = Proxy(id: nat, version: nat)

  /** The logged requests the controlling thread makes outside this file;
      connect, registry, listener, roundtrip, dispatch and memory-read
      calls are not among them. */
  datatype Call =
    | Bind(role: Role, id: nat, version: nat)   // wl_registry_bind
    | LockRequest                               // ext_session_lock_manager_v1_lock
    | CreateSurface                             // wl_compositor_create_surface
    | GetLockSurface                            // ext_session_lock_v1_get_lock_surface
    | AckConfigure(serial: nat)                 // ext_session_lock_surface_v1_ack_configure
    | CreateEglWindow(width: nat, height: nat)  // wl_egl_window_create
    | SetupGl                                   // setup_gl: EGL display, surface, context, window init
    | GetKeyboard                               // wl_seat_get_keyboard
    | ProcessKey(button: Button, pressed: bool) // gbcc_input_process_key
    | Draw(width: nat, height: nat)             // draw_gbcc: window update and buffer swap
    | UnlockAndDestroy                          // ext_session_lock_v1_unlock_and_destroy
    | Flush                                     // wl_display_flush
    | WakeEmulator                              // sem_post on the vsync semaphore
    | JoinEmulator                              // pthread_join
    | DestroyAudio                              // gbcc_audio_destroy
    | DestroyEglSurface                         // eglDestroySurface
    | DestroyEglContext                         // eglDestroyContext
    | TerminateEgl                              // eglTerminate
    | DestroyEglWindow                          // wl_egl_window_destroy
    | DestroyKeyboard                           // wl_keyboard_destroy
    | DestroyWlSurface                          // wl_surface_destroy
    | Disconnect                                // wl_display_disconnect

  /** Every SetupGl in the log comes right after the acknowledgement of a
      configure event and the creation of the EGL window it sized. */
  ghost predicate AckBeforeSetup(calls: seq<Call>)
  {
    forall j :: 0 <= j < |calls| && calls[j] == SetupGl ==>
      j >= 2 && calls[j - 2].AckConfigure? && calls[j - 1].CreateEglWindow?
  }

  lemma NoSetupAck(calls: seq<Call>)
    requires SetupGl !in calls
    ensures AckBeforeSetup(calls)
  {
  }

  lemma AckBeforeSetupAppend(a: seq<Call>, b: seq<Call>)
    requires AckBeforeSetup(a) && AckBeforeSetup(b)
    ensures AckBeforeSetup(a + b)
  {
    forall j | 0 <= j < |a + b| && (a + b)[j] == SetupGl
      ensures j >= 2 && (a + b)[j - 2].AckConfigure? && (a + b)[j - 1].CreateEglWindow?
    {
      if j >= |a| {
        assert b[j - |a|] == SetupGl;
      }
    }
  }

  // ---------------------------------------------------------------------
  // Registry

  /** An advertised global: registry name, interface name, version. */
  datatype Global = Global(id: nat, iface: string, version: nat)

  /** The interface names registry_global compares against. */
  function RoleOf(iface: string): Option<Role>
  {
    if iface == "ext_session_lock_manager_v1" then Some(LockManager)
    else if iface == "wl_compositor" then Some(Compositor)
    else if iface == "wl_seat" then Some(Seat)
    else if iface == "wl_output" then Some(Output)
    else None
  }

  /** The version registry_global binds each global at. */
  function BindVersion(role: Role): nat
  {
    match role
    case LockManager => 1
    case Compositor => 4
    case Seat => 1
    case Output => 2
  }

  /** The four global fields of struct display. */
  datatype Registry = Registry(lockMgr: Option<Proxy>, compositor: Option<Proxy>, seat: Option<Proxy>, output: Option<Proxy>)
  {
    function Get(role: Role): Option<Proxy>
    {
      match role
      case LockManager => lockMgr
      case Compositor => compositor
      case Seat => seat
      case Output => output
    }

    /** The startup check: none of the four is NULL. */
    predicate Complete()
    {
      lockMgr.Some? && compositor.Some? && seat.Some? && output.Some?
    }
  }

  /** struct display d = {0}. */
  const NoGlobals := Registry(None, None, None, None)

  /** registry_global: binds the field named by the interface and leaves
      the other three alone; an unknown interface changes nothing. */
  function Announce(r: Registry, g: Global): (r': Registry)
    ensures forall role :: r'.Get(role) == (if RoleOf(g.iface) == Some(role) then Some(Proxy(g.id, BindVersion(role))) else r.Get(role))
  {
    match RoleOf(g.iface)
    case None => r
    case Some(LockManager) => r.(lockMgr := Some(Proxy(g.id, 1)))
    case Some(Compositor) => r.(compositor := Some(Proxy(g.id, 4)))
    case Some(Seat) => r.(seat := Some(Proxy(g.id, 1)))
    case Some(Output) => r.(output := Some(Proxy(g.id, 2)))
  }

  /** The bind request registry_global makes for one global. */
  function BindCall(g: Global): seq<Call>
  {
    match RoleOf(g.iface)
    case None => []
    case Some(role) => [Bind(role, g.id, BindVersion(role))]
  }

  /** The globals after the first roundtrip delivered `gs` in order. */
  function AnnounceAll(r: Registry, gs: seq<Global>): Registry
  {
    if gs == [] then r else Announce(AnnounceAll(r, gs[..|gs| - 1]), gs[|gs| - 1])
  }

  /** The bind requests made while the first roundtrip delivered `gs`:
      nothing but binds. */
  function BindCalls(gs: seq<Global>): (calls: seq<Call>)
    ensures forall k :: 0 <= k < |calls| ==> calls[k].Bind?
  {
    if gs == [] then [] else BindCalls(gs[..|gs| - 1]) + BindCall(gs[|gs| - 1])
  }

  /** Some advertised global has the interface name of `role`. */
  ghost predicate Advertised(gs: seq<Global>, role: Role)
  {
    exists k :: 0 <= k < |gs| && RoleOf(gs[k].iface) == Some(role)
  }

  lemma {:induction false} BoundIffAdvertised(gs: seq<Global>, role: Role)
    ensures AnnounceAll(NoGlobals, gs).Get(role).Some? <==> Advertised(gs, role)
  {
    if gs != [] {
      var init := gs[..|gs| - 1];
      BoundIffAdvertised(init, role);
      assert forall k :: 0 <= k < |init| ==> init[k] == gs[k];
      if Advertised(gs, role) && !Advertised(init, role) {
        var k :| 0 <= k < |gs| && RoleOf(gs[k].iface) == Some(role);
        assert k == |gs| - 1;
      }
    }
  }

  /** Every interface the program needs was advertised. */
  ghost predicate AllAdvertised(gs: seq<Global>)
  {
    Advertised(gs, LockManager) && Advertised(gs, Compositor) && Advertised(gs, Seat) && Advertised(gs, Output)
  }

  /** Startup passes the globals check exactly when each of the four
      interfaces was advertised at least once. */
  lemma GlobalsCompleteIff(gs: seq<Global>)
    ensures AnnounceAll(NoGlobals, gs).Complete() <==> AllAdvertised(gs)
  {
    BoundIffAdvertised(gs, LockManager);
    BoundIffAdvertised(gs, Compositor);
    BoundIffAdvertised(gs, Seat);
    BoundIffAdvertised(gs, Output);
  }

  // ---------------------------------------------------------------------
  // Lock surface state and event handlers

  /** The fields of struct lock_surface the model tracks, the two emulator
      flags the render loop writes (gbc->quit, gbc->animating), and the log
      of calls made so far. The EGL handles are not fields: outside the
      exit(1) paths they are non-NULL exactly when `configured` holds. */
  datatype LockState = LockState(
    width: nat, height: nat,
    configured: bool, locked: bool, running: bool, shouldQuit: bool,
    emulatorQuit: bool, animating: bool,
    calls: seq<Call>)

  /** Protocol events the handlers receive. A configure event carries, as
      inputs, whether wl_egl_window_create and setup_gl succeed. */
  datatype Event =
    | Locked
    | Finished
    | Configure(serial: nat, width: nat, height: nat, windowOk: bool, glOk: bool)
    | Key(key: nat, state: nat)

  /** A handler's new state, and whether it called exit(1). */
  datatype Handled = Handled(s: LockState, fatal: bool)

  /** keyboard_key. */
  function HandleKey(s: LockState, key: nat, state: nat): LockState
  {
    var pressed := state == KeyStatePressed;
    match KeyButton(key)
    case Some(b) => s.(calls := s.calls + [ProcessKey(b, pressed)])
    case None => if key == EscKey && pressed then s.(shouldQuit := true) else s
  }

  /** What a key event does: a mapped key forwards its button with the
      pressed state and nothing else; ESC sets should_quit on press only;
      every other key changes nothing. */
  lemma KeyEffect(s: LockState, key: nat, state: nat)
    ensures KeyButton(key).Some? ==>
      HandleKey(s, key, state) == s.(calls := s.calls + [ProcessKey(KeyButton(key).value, state == KeyStatePressed)])
    ensures key == EscKey && state == KeyStatePressed ==> HandleKey(s, key, state) == s.(shouldQuit := true)
    ensures key == EscKey && state != KeyStatePressed ==> HandleKey(s, key, state) == s
    ensures KeyButton(key).None? && key != EscKey ==> HandleKey(s, key, state) == s
  {
  }

  /** surf_configure: stores the size, acknowledges the serial, creates the
      EGL window and sets up GL; `configured` is set only when both
      succeed, and either failure is exit(1). */
  function HandleConfigure(s: LockState, serial: nat, w: nat, h: nat, windowOk: bool, glOk: bool): Handled
  {
    var acked := s.(width := w, height := h, calls := s.calls + [AckConfigure(serial), CreateEglWindow(w, h)]);
    if !windowOk then Handled(acked, true)
    else
      var setUp := acked.(calls := acked.calls + [SetupGl]);
      if !glOk then Handled(setUp, true)
      else Handled(setUp.(configured := true), false)
  }

  /** The order surf_configure makes its calls in. */
  lemma ConfigureOrder(s: LockState, serial: nat, w: nat, h: nat, windowOk: bool, glOk: bool)
    ensures var r := HandleConfigure(s, serial, w, h, windowOk, glOk);
      && r.s.width == w && r.s.height == h
      && r.s.calls[..|s.calls| + 2] == s.calls + [AckConfigure(serial), CreateEglWindow(w, h)]
      && (windowOk ==> r.s.calls == s.calls + [AckConfigure(serial), CreateEglWindow(w, h), SetupGl])
      && (r.s.configured <==> s.configured || (windowOk && glOk))
      && (r.fatal <==> !(windowOk && glOk))
  {
  }

  /** The listener for one event. lock_finished is exit(1). */
  function Handle(s: LockState, e: Event): Handled
  {
    match e
    case Locked => Handled(s.(locked := true), false)
    case Finished => Handled(s, true)
    case Configure(serial, w, h, windowOk, glOk) => HandleConfigure(s, serial, w, h, windowOk, glOk)
    case Key(key, state) => Handled(HandleKey(s, key, state), false)
  }

  /** Dispatching a batch of events, stopping at the first exit(1). */
  function DispatchAll(s: LockState, es: seq<Event>): Handled
  {
    if es == [] then Handled(s, false)
    else
      var h := DispatchAll(s, es[..|es| - 1]);
      if h.fatal then h else Handle(h.s, es[|es| - 1])
  }

  /** What no handler touches or undoes. */
  ghost predicate HandlerStep(s: LockState, s': LockState)
  {
    && s'.running == s.running && s'.emulatorQuit == s.emulatorQuit && s'.animating == s.animating
    && (s.shouldQuit ==> s'.shouldQuit)
    && (s.configured ==> s'.configured)
    && |s.calls| <= |s'.calls| && s'.calls[..|s.calls|] == s.calls
    && UnlockAndDestroy !in s'.calls[|s.calls|..]
    && AckBeforeSetup(s'.calls[|s.calls|..])
    && (s'.configured && !s.configured ==> SetupGl in s'.calls[|s.calls|..])
  }

  lemma HandlerStepTrans(s1: LockState, s2: LockState, s3: LockState)
    requires HandlerStep(s1, s2) && HandlerStep(s2, s3)
    ensures HandlerStep(s1, s3)
  {
    var n1, n2 := |s1.calls|, |s2.calls|;
    assert s3.calls[n1..] == s3.calls[n1..n2] + s3.calls[n2..];
    assert s3.calls[n1..n2] == s2.calls[n1..];
    AckBeforeSetupAppend(s2.calls[n1..], s3.calls[n2..]);
  }

  lemma AppendStep(s: LockState, s': LockState, added: seq<Call>)
    requires s'.calls == s.calls + added
    requires s'.running == s.running && s'.emulatorQuit == s.emulatorQuit && s'.animating == s.animating
    requires (s.shouldQuit ==> s'.shouldQuit) && (s.configured ==> s'.configured)
    requires UnlockAndDestroy !in added && AckBeforeSetup(added)
    requires s'.configured && !s.configured ==> SetupGl in added
    ensures HandlerStep(s, s')
  {
    assert s'.calls[|s.calls|..] == added;
    assert s'.calls[..|s.calls|] == s.calls;
  }

  lemma ConfigureStep(s: LockState, serial: nat, w: nat, h: nat, windowOk: bool, glOk: bool)
    ensures HandlerStep(s, HandleConfigure(s, serial, w, h, windowOk, glOk).s)
  {
    var s' := HandleConfigure(s, serial, w, h, windowOk, glOk).s;
    if windowOk {
      AppendStep(s, s', [AckConfigure(serial), CreateEglWindow(w, h), SetupGl]);
    } else {
      AppendStep(s, s', [AckConfigure(serial), CreateEglWindow(w, h)]);
    }
  }

  lemma KeyStep(s: LockState, key: nat, state: nat)
    ensures HandlerStep(s, HandleKey(s, key, state))
  {
    var s' := HandleKey(s, key, state);
    if KeyButton(key).Some? {
      AppendStep(s, s', [ProcessKey(KeyButton(key).value, state == KeyStatePressed)]);
    } else {
      AppendStep(s, s', []);
    }
  }

  lemma HandleStep(s: LockState, e: Event)
    ensures HandlerStep(s, Handle(s, e).s)
  {
    match e
    case Configure(serial, w, h, windowOk, glOk) =>
      ConfigureStep(s, serial, w, h, windowOk, glOk);
    case Key(key, state) =>
      KeyStep(s, key, state);
    case _ =>
      AppendStep(s, Handle(s, e).s, []);
  }

  lemma {:induction false} DispatchStep(s: LockState, es: seq<Event>)
    ensures HandlerStep(s, DispatchAll(s, es).s)
  {
    if es == [] {
      assert s.calls[|s.calls|..] == [];
    } else {
      var h := DispatchAll(s, es[..|es| - 1]);
      DispatchStep(s, es[..|es| - 1]);
      if !h.fatal {
        HandleStep(h.s, es[|es| - 1]);
        HandlerStepTrans(s, h.s, Handle(h.s, es[|es| - 1]).s);
      }
    }
  }

  /** Once a handler has called exit(1), later events are never handled. */
  lemma {:induction false} DispatchFatalFinal(s: LockState, es: seq<Event>, i: nat)
    requires i <= |es| && DispatchAll(s, es[..i]).fatal
    ensures DispatchAll(s, es) == DispatchAll(s, es[..i])
    decreases |es| - i
  {
    if i < |es| {
      assert es[..i + 1][..i] == es[..i];
      DispatchFatalFinal(s, es, i + 1);
    } else {
      assert es[..i] == es;
    }
  }

  // ---------------------------------------------------------------------
  // The render loop and the unlock sequencer

  /** One pass of the main loop: whether wl_display_dispatch succeeded, the
      events it and wl_display_dispatch_pending delivered, the byte read at
      emulator address 0xDCC7, and the elapsed time measured at the end of the pass. */
  datatype Tick = Tick(dispatchOk: bool, events: seq<Event>, memory: nat, elapsed: real)

  /** Why the loop stopped, if it did without clearing `running`:
      dispatch returned -1, or a handler called exit(1). */
  datatype Halt = Going | DispatchFailed | Fatal

  /** The loop's state: the lock surface, the locals `time` and
      `elapsed_time`, and how the loop stopped. */
  datatype Loop = Loop(s: LockState, time: real, elapsed: real, halt: Halt)
  {
    predicate Stopped()
    {
      halt != Going || !s.running
    }
  }

  /** The unlock sequencer after drawing: polls the memory byte, then, once
      a quit was requested, adds the previous pass's elapsed time, raises
      the fade flag inside [FadeStart, FadeEnd), or from UnlockAt stops the
      loop, tells the emulator to quit and releases the session. */
  function Sequence(s: LockState, time: real, elapsed: real, t: Tick): Loop
  {
    var q := s.(shouldQuit := s.shouldQuit || t.memory == UnlockByte);
    var time' := if q.shouldQuit then time + elapsed else time;
    var s' :=
      if !q.shouldQuit then q
      else if FadeStart <= time' < FadeEnd then q.(animating := true)
      else if time' >= UnlockAt then q.(running := false, emulatorQuit := true, calls := q.calls + [UnlockAndDestroy])
      else q;
    Loop(s'.(calls := s'.calls + [Flush]), time', t.elapsed, Going)
  }

  /** One iteration of `while (ls.running && wl_display_dispatch() != -1)`;
      a stopped loop stays as it is. */
  function Iterate(l: Loop, t: Tick): Loop
  {
    if l.Stopped() then l
    else if !t.dispatchOk then l.(halt := DispatchFailed)
    else
      var h := DispatchAll(l.s, t.events);
      if h.fatal then Loop(h.s, l.time, l.elapsed, Fatal)
      else Sequence(h.s.(calls := h.s.calls + [Draw(h.s.width, h.s.height)]), l.time, l.elapsed, t)
  }

  /** The loop run over a finite prefix of the passes. */
  function RunLoop(l: Loop, ts: seq<Tick>): Loop
  {
    if ts == [] then l else Iterate(RunLoop(l, ts[..|ts| - 1]), ts[|ts| - 1])
  }

  /** The state at the first pass: `time` and `elapsed_time` are 0. */
  function LoopStart(s: LockState): Loop
  {
    Loop(s, 0.0, 0.0, Going)
  }

  /** One pass that dispatches without exit(1): the quit request is latched
      (by ESC or by the memory byte) and never cleared; `time` grows by the
      previous pass's elapsed time once quit is requested and is frozen
      before; the fade flag is raised only in [FadeStart, FadeEnd); the
      window [FadeEnd, UnlockAt) changes neither flag; from UnlockAt the
      loop stops, the emulator is told to quit and the session is released. */
  lemma PassEffect(l: Loop, t: Tick)
    requires !l.Stopped() && t.dispatchOk && !DispatchAll(l.s, t.events).fatal
    ensures var h := DispatchAll(l.s, t.events).s;
      var r := Iterate(l, t);
      && r.halt == Going && r.elapsed == t.elapsed
      && (t.memory == UnlockByte ==> r.s.shouldQuit)
      && (l.s.shouldQuit ==> r.s.shouldQuit)
      && r.s.shouldQuit == (h.shouldQuit || t.memory == UnlockByte)
      && r.time == (if r.s.shouldQuit then l.time + l.elapsed else l.time)
      && (r.s.animating <==> l.s.animating || (r.s.shouldQuit && FadeStart <= r.time < FadeEnd))
      && (!r.s.running <==> r.s.shouldQuit && r.time >= UnlockAt)
      && (r.s.shouldQuit && FadeEnd <= r.time < UnlockAt ==> r.s.animating == l.s.animating && r.s.running)
      && (!r.s.running ==> r.s.emulatorQuit && r.s.calls == h.calls + [Draw(h.width, h.height), UnlockAndDestroy, Flush])
      && (r.s.running ==> r.s.emulatorQuit == l.s.emulatorQuit && r.s.calls == h.calls + [Draw(h.width, h.height), Flush])
  {
    DispatchStep(l.s, t.events);
  }

  /** The loop invariant of the sequencer: `time` stays 0 until a quit is
      requested; the session is released at most once, exactly when the
      loop stopped running, and only with `time` at UnlockAt or later; the
      emulator has been told to quit exactly when the loop stopped running;
      configure acknowledgements precede GL setup. */
  ghost predicate SequencerInv(l: Loop)
  {
    && (!l.s.shouldQuit ==> l.time == 0.0)
    && multiset(l.s.calls)[UnlockAndDestroy] == (if l.s.running then 0 else 1)
    && (l.s.emulatorQuit <==> !l.s.running)
    && (!l.s.running ==> l.time >= UnlockAt && l.s.shouldQuit)
    && AckBeforeSetup(l.s.calls)
    && (l.s.configured ==> SetupGl in l.s.calls)
  }

  /** The state right after ext_session_lock_manager_v1_lock_session. */
  function Requested(): LockState
  {
    LockState(0, 0, false, false, true, false, false, false, [LockRequest])
  }

  /** From the lock request to the third roundtrip: the second roundtrip's
      events are dispatched, then, unless a handler exited, the surface and
      its lock surface are created and the third roundtrip's events are
      dispatched. */
  function LockPhase(afterLock: seq<Event>, afterSurface: seq<Event>): Handled
  {
    var h := DispatchAll(Requested(), afterLock);
    if h.fatal then h
    else DispatchAll(h.s.(calls := h.s.calls + [CreateSurface, GetLockSurface]), afterSurface)
  }

  /** Setting up the lock touches none of the sequencer's flags, keeps the
      lock request first in the log, and leaves the loop's invariant
      established. */
  lemma LockPhaseStep(afterLock: seq<Event>, afterSurface: seq<Event>)
    ensures HandlerStep(Requested(), LockPhase(afterLock, afterSurface).s)
  {
    var s1 := Requested();
    var h := DispatchAll(s1, afterLock);
    DispatchStep(s1, afterLock);
    if !h.fatal {
      var before := h.s.(calls := h.s.calls + [CreateSurface, GetLockSurface]);
      AppendStep(h.s, before, [CreateSurface, GetLockSurface]);
      HandlerStepTrans(s1, h.s, before);
      DispatchStep(before, afterSurface);
      HandlerStepTrans(s1, before, DispatchAll(before, afterSurface).s);
    }
  }

  lemma LockPhaseStart(afterLock: seq<Event>, afterSurface: seq<Event>)
    ensures var r := LockPhase(afterLock, afterSurface).s;
      && |r.calls| > 0 && r.calls[0] == LockRequest
      && SequencerInv(LoopStart(r))
      && SequencerInv(LoopStart(r.(calls := r.calls + [GetKeyboard])))
  {
    var s1 := Requested();
    var r := LockPhase(afterLock, afterSurface).s;
    var r' := r.(calls := r.calls + [GetKeyboard]);
    assert HandlerStep(s1, r) by {
      LockPhaseStep(afterLock, afterSurface);
    }
    assert |r.calls| > 0 && r.calls[0] == LockRequest by {
      assert r.calls[..1] == [LockRequest];
    }
    assert SequencerInv(LoopStart(r)) by {
      StartInv(s1, r);
    }
    assert SequencerInv(LoopStart(r')) by {
      AppendStep(r, r', [GetKeyboard]);
      HandlerStepTrans(s1, r, r');
      StartInv(s1, r');
    }
  }

  /** The state the handlers leave behind after the lock request satisfies
      the invariant at the loop's start. */
  lemma StartInv(s1: LockState, s: LockState)
    requires s1 == Requested()
    requires HandlerStep(s1, s)
    ensures SequencerInv(LoopStart(s))
  {
    assert s.calls == [LockRequest] + s.calls[1..];
    assert multiset(s.calls) == multiset([LockRequest]) + multiset(s.calls[1..]);
    AckBeforeSetupAppend([LockRequest], s.calls[1..]);
    if s.configured {
      assert SetupGl in s.calls[1..];
    }
  }

  /** The handlers dispatched in a pass keep the invariant. */
  lemma DispatchKeepsInv(l: Loop, es: seq<Event>)
    requires SequencerInv(l) && l.s.running
    ensures var h := DispatchAll(l.s, es); SequencerInv(Loop(h.s, l.time, l.elapsed, Going)) && h.s.running
  {
    var h := DispatchAll(l.s, es);
    DispatchStep(l.s, es);
    var n := |l.s.calls|;
    var added := h.s.calls[n..];
    assert h.s.calls == l.s.calls + added;
    AckBeforeSetupAppend(l.s.calls, added);
    assert multiset(h.s.calls) == multiset(l.s.calls) + multiset(added);
    assert multiset(added)[UnlockAndDestroy] == 0;
    if h.s.configured && !l.s.configured {
      assert SetupGl in added;
    }
  }

  /** What the sequencer does to a running loop's log and flags. */
  lemma SequenceShape(s: LockState, time: real, elapsed: real, t: Tick)
    requires s.running
    ensures var r := Sequence(s, time, elapsed, t);
      && r.s.configured == s.configured
      && (!r.s.shouldQuit ==> !s.shouldQuit && r.time == time)
      && (r.s.running ==> r.s.calls == s.calls + [Flush] && r.s.emulatorQuit == s.emulatorQuit)
      && (!r.s.running ==> r.s.calls == s.calls + [UnlockAndDestroy, Flush] && r.s.emulatorQuit && r.s.shouldQuit && r.time >= UnlockAt)
  {
  }

  /** Appending calls to a running loop's log keeps the invariant when
      the release, if any, is the one that stops the loop. */
  lemma InvAfter(l: Loop, l': Loop, added: seq<Call>)
    requires SequencerInv(l) && l.s.running
    requires l'.s.calls == l.s.calls + added && l'.s.configured == l.s.configured
    requires AckBeforeSetup(added)
    requires !l'.s.shouldQuit ==> l'.time == 0.0
    requires l'.s.running ==> UnlockAndDestroy !in added && l'.s.emulatorQuit == l.s.emulatorQuit
    requires !l'.s.running ==> multiset(added)[UnlockAndDestroy] == 1 && l'.s.emulatorQuit && l'.time >= UnlockAt && l'.s.shouldQuit
    ensures SequencerInv(l')
  {
    AckBeforeSetupAppend(l.s.calls, added);
    assert multiset(l'.s.calls) == multiset(l.s.calls) + multiset(added);
    assert SetupGl in l.s.calls ==> SetupGl in l'.s.calls;
  }

  /** Drawing and the sequencer keep the invariant. */
  lemma SequenceKeepsInv(s: LockState, time: real, elapsed: real, t: Tick)
    requires SequencerInv(Loop(s, time, elapsed, Going)) && s.running
    ensures SequencerInv(Sequence(s.(calls := s.calls + [Draw(s.width, s.height)]), time, elapsed, t))
  {
    var d := s.(calls := s.calls + [Draw(s.width, s.height)]);
    SequenceShape(d, time, elapsed, t);
    var r := Sequence(d, time, elapsed, t);
    if r.s.running {
      assert r.s.calls == s.calls + [Draw(s.width, s.height), Flush];
      InvAfter(Loop(s, time, elapsed, Going), r, [Draw(s.width, s.height), Flush]);
    } else {
      assert r.s.calls == s.calls + [Draw(s.width, s.height), UnlockAndDestroy, Flush];
      assert multiset([Draw(s.width, s.height), UnlockAndDestroy, Flush])[UnlockAndDestroy] == 1;
      InvAfter(Loop(s, time, elapsed, Going), r, [Draw(s.width, s.height), UnlockAndDestroy, Flush]);
    }
  }

  lemma IterateKeepsInv(l: Loop, t: Tick)
    requires SequencerInv(l)
    ensures SequencerInv(Iterate(l, t))
  {
    if !l.Stopped() && t.dispatchOk {
      DispatchKeepsInv(l, t.events);
      var h := DispatchAll(l.s, t.events);
      if !h.fatal {
        SequenceKeepsInv(h.s, l.time, l.elapsed, t);
      }
    }
  }

  lemma {:induction false} RunLoopKeepsInv(l: Loop, ts: seq<Tick>)
    requires SequencerInv(l)
    ensures SequencerInv(RunLoop(l, ts))
  {
    if ts != [] {
      RunLoopKeepsInv(l, ts[..|ts| - 1]);
      IterateKeepsInv(RunLoop(l, ts[..|ts| - 1]), ts[|ts| - 1]);
    }
  }

  /** One pass only appends to the log. */
  lemma IterateHead(m: Loop, t: Tick)
    ensures |m.s.calls| <= |Iterate(m, t).s.calls|
    ensures Iterate(m, t).s.calls[..|m.s.calls|] == m.s.calls
  {
    if !m.Stopped() && t.dispatchOk {
      var h := DispatchAll(m.s, t.events);
      DispatchStep(m.s, t.events);
      if !h.fatal {
        var d := h.s.(calls := h.s.calls + [Draw(h.s.width, h.s.height)]);
        SequenceShape(d, m.time, m.elapsed, t);
        var r := Sequence(d, m.time, m.elapsed, t);
        assert r.s.calls[..|m.s.calls|] == d.calls[..|m.s.calls|] == h.s.calls[..|m.s.calls|];
      }
    }
  }

  /** The loop only appends to the log. */
  lemma {:induction false} RunLoopHead(l: Loop, ts: seq<Tick>)
    ensures |l.s.calls| <= |RunLoop(l, ts).s.calls|
    ensures RunLoop(l, ts).s.calls[..|l.s.calls|] == l.s.calls
  {
    if ts != [] {
      var m := RunLoop(l, ts[..|ts| - 1]);
      RunLoopHead(l, ts[..|ts| - 1]);
      IterateHead(m, ts[|ts| - 1]);
      var r := RunLoop(l, ts);
      assert r.s.calls[..|l.s.calls|] == r.s.calls[..|m.s.calls|][..|l.s.calls|];
    }
  }

  /** The elapsed times the loop measures are never negative. */
  ghost predicate ElapsedNonNegative(ts: seq<Tick>)
  {
    forall k :: 0 <= k < |ts| ==> ts[k].elapsed >= 0.0
  }

  /** Over any run of passes `time` never decreases, and a quit request,
      once made, is never withdrawn. */
  lemma {:induction false} RunLoopMonotone(l: Loop, ts: seq<Tick>)
    requires l.elapsed >= 0.0 && ElapsedNonNegative(ts)
    ensures RunLoop(l, ts).time >= l.time
    ensures RunLoop(l, ts).elapsed >= 0.0
    ensures l.s.shouldQuit ==> RunLoop(l, ts).s.shouldQuit
  {
    if ts != [] {
      var m := RunLoop(l, ts[..|ts| - 1]);
      RunLoopMonotone(l, ts[..|ts| - 1]);
      assert ts[|ts| - 1] == ts[..][|ts| - 1];
      DispatchStep(m.s, ts[|ts| - 1].events);
    }
  }

  /** A stopped loop ignores later passes. */
  lemma {:induction false} RunLoopStoppedFinal(l: Loop, ts: seq<Tick>, i: nat)
    requires i <= |ts| && RunLoop(l, ts[..i]).Stopped()
    ensures RunLoop(l, ts) == RunLoop(l, ts[..i])
    decreases |ts| - i
  {
    if i < |ts| {
      assert ts[..i + 1][..i] == ts[..i];
      RunLoopStoppedFinal(l, ts, i + 1);
    } else {
      assert ts[..i] == ts;
    }
  }

  /** The loop ends by a failed dispatch only if some pass reported one. */
  lemma {:induction false} DispatchFailedWitness(l: Loop, ts: seq<Tick>)
    requires l.halt == Going
    ensures RunLoop(l, ts).halt == DispatchFailed ==> exists k :: 0 <= k < |ts| && !ts[k].dispatchOk
  {
    if ts != [] {
      var init := ts[..|ts| - 1];
      DispatchFailedWitness(l, init);
      var m := RunLoop(l, init);
      if m.halt == DispatchFailed {
        var k :| 0 <= k < |init| && !init[k].dispatchOk;
        assert ts[k] == init[k];
      }
    }
  }

  // ---------------------------------------------------------------------
  // Teardown

  /** The calls after the loop: flush, wake and join the emulator thread,
      destroy audio, then the guarded releases (EGL only when it was set up,
      the keyboard only when the seat gave one), and disconnect. */
  function TeardownCalls(configured: bool, keyboard: bool): seq<Call>
  {
    [Flush, WakeEmulator, JoinEmulator, DestroyAudio]
    + (if configured then [DestroyEglSurface, DestroyEglContext, TerminateEgl, DestroyEglWindow] else [])
    + (if keyboard then [DestroyKeyboard] else [])
    + [DestroyWlSurface, Disconnect]
  }

  /** Every occurrence of `a` in `calls` comes before every occurrence of `b`. */
  ghost predicate Precedes(calls: seq<Call>, a: Call, b: Call)
  {
    forall i, j :: 0 <= i < |calls| && 0 <= j < |calls| && calls[i] == a && calls[j] == b ==> i < j
  }

  lemma PrecedesAcross(p: seq<Call>, q: seq<Call>, a: Call, b: Call)
    requires a !in q && b !in p
    ensures Precedes(p + q, a, b)
  {
    forall i, j | 0 <= i < |p + q| && 0 <= j < |p + q| && (p + q)[i] == a && (p + q)[j] == b
      ensures i < j
    {
    }
  }

  lemma PrecedesWithin(p: seq<Call>, m: seq<Call>, q: seq<Call>, a: Call, b: Call)
    requires a !in p && b !in p && a !in q && b !in q && Precedes(m, a, b)
    ensures Precedes(p + m + q, a, b)
  {
    var r := p + m + q;
    forall i, j | 0 <= i < |r| && 0 <= j < |r| && r[i] == a && r[j] == b
      ensures i < j
    {
    }
  }

  /** The teardown starts by flushing, waking and joining the emulator,
      disconnects last, releases the EGL objects exactly when the surface
      was configured and the keyboard exactly when one was obtained, and
      never releases the session. */
  lemma TeardownShape(configured: bool, keyboard: bool)
    ensures var r := TeardownCalls(configured, keyboard);
      && r[..3] == [Flush, WakeEmulator, JoinEmulator]
      && r[|r| - 1] == Disconnect
      && (DestroyEglSurface in r <==> configured)
      && (DestroyKeyboard in r <==> keyboard)
      && UnlockAndDestroy !in r && SetupGl !in r
  {
    var r := TeardownCalls(configured, keyboard);
    assert r[..3] == [Flush, WakeEmulator, JoinEmulator];
  }

  /** The pieces of the teardown: fixed prefix, EGL objects, keyboard,
      surface and connection. */
  lemma TeardownParts(configured: bool, keyboard: bool)
    returns (p: seq<Call>, e: seq<Call>, k: seq<Call>, w: seq<Call>)
    ensures TeardownCalls(configured, keyboard) == p + e + k + w
    ensures p == [Flush, WakeEmulator, JoinEmulator, DestroyAudio]
    ensures e == if configured then [DestroyEglSurface, DestroyEglContext, TerminateEgl, DestroyEglWindow] else []
    ensures k == if keyboard then [DestroyKeyboard] else []
    ensures w == [DestroyWlSurface, Disconnect]
  {
    p := [Flush, WakeEmulator, JoinEmulator, DestroyAudio];
    e := if configured then [DestroyEglSurface, DestroyEglContext, TerminateEgl, DestroyEglWindow] else [];
    k := if keyboard then [DestroyKeyboard] else [];
    w := [DestroyWlSurface, Disconnect];
  }

  /** The emulator thread is joined before any graphics object is released,
      and the EGL window is released before the Wayland surface. */
  lemma TeardownJoinFirst(configured: bool, keyboard: bool)
    ensures var r := TeardownCalls(configured, keyboard);
      && Precedes(r, JoinEmulator, DestroyEglSurface)
      && Precedes(r, DestroyEglWindow, DestroyWlSurface)
  {
    var p, e, k, w := TeardownParts(configured, keyboard);
    assert Precedes(p + e + k + w, JoinEmulator, DestroyEglSurface) by {
      assert p + e + k + w == p + (e + k + w);
      PrecedesAcross(p, e + k + w, JoinEmulator, DestroyEglSurface);
    }
    assert Precedes(p + e + k + w, DestroyEglWindow, DestroyWlSurface) by {
      assert p + e + k + w == (p + e) + (k + w);
      PrecedesAcross(p + e, k + w, DestroyEglWindow, DestroyWlSurface);
    }
  }

  /** The EGL surface, context and display are released in that order,
      and the EGL window after them. */
  lemma TeardownEglOrder(configured: bool, keyboard: bool)
    ensures var r := TeardownCalls(configured, keyboard);
      && Precedes(r, DestroyEglSurface, DestroyEglContext)
      && Precedes(r, DestroyEglContext, TerminateEgl)
      && Precedes(r, TerminateEgl, DestroyEglWindow)
  {
    var p, e, k, w := TeardownParts(configured, keyboard);
    assert p + e + k + w == p + e + (k + w);
    assert Precedes(p + e + (k + w), DestroyEglSurface, DestroyEglContext) by {
      PrecedesWithin(p, e, k + w, DestroyEglSurface, DestroyEglContext);
    }
    assert Precedes(p + e + (k + w), DestroyEglContext, TerminateEgl) by {
      PrecedesWithin(p, e, k + w, DestroyEglContext, TerminateEgl);
    }
    assert Precedes(p + e + (k + w), TerminateEgl, DestroyEglWindow) by {
      PrecedesWithin(p, e, k + w, TerminateEgl, DestroyEglWindow);
    }
  }

  /** The keyboard and the Wayland surface are released before the
      connection is closed. */
  lemma TeardownDisconnectLast(configured: bool, keyboard: bool)
    ensures var r := TeardownCalls(configured, keyboard);
      && Precedes(r, DestroyKeyboard, Disconnect)
      && Precedes(r, DestroyWlSurface, Disconnect)
  {
    var p, e, k, w := TeardownParts(configured, keyboard);
    assert p + e + k + w == (p + e + k) + w + [];
    assert Precedes((p + e + k) + w + [], DestroyKeyboard, Disconnect) by {
      PrecedesAcross(p + e + k, w, DestroyKeyboard, Disconnect);
      assert (p + e + k) + w + [] == (p + e + k) + w;
    }
    assert Precedes((p + e + k) + w + [], DestroyWlSurface, Disconnect) by {
      PrecedesWithin(p + e + k, w, [], DestroyWlSurface, Disconnect);
    }
  }

  // ---------------------------------------------------------------------
  // The objects

  /** struct display: the bound globals, and the bind requests made. */
  class Display {
    var lockMgr: Option<Proxy>
    var compositor: Option<Proxy>
    var seat: Option<Proxy>
    var output: Option<Proxy>
    var binds: seq<Call>

    function Model(): Registry
      reads this
    {
      Registry(lockMgr, compositor, seat, output)
    }

    constructor ()
      ensures Model() == NoGlobals && binds == []
    {
      lockMgr, compositor, seat, output := None, None, None, None;
      binds := [];
    }

    /** registry_global. */
    method RegistryGlobal(g: Global)
      modifies this
      ensures Model() == Announce(old(Model()), g)
      ensures binds == old(binds) + BindCall(g)
    {
      if g.iface == "ext_session_lock_manager_v1" {
        lockMgr := Some(Proxy(g.id, 1));
        binds := binds + [Bind(LockManager, g.id, 1)];
      } else if g.iface == "wl_compositor" {
        compositor := Some(Proxy(g.id, 4));
        binds := binds + [Bind(Compositor, g.id, 4)];
      } else if g.iface == "wl_seat" {
        seat := Some(Proxy(g.id, 1));
        binds := binds + [Bind(Seat, g.id, 1)];
      } else if g.iface == "wl_output" {
        output := Some(Proxy(g.id, 2));
        binds := binds + [Bind(Output, g.id, 2)];
      }
    }

    /** The first wl_display_roundtrip: registry_global for each global
        the compositor advertises, in order. */
    method Roundtrip(globals: seq<Global>)
      modifies this
      ensures Model() == AnnounceAll(old(Model()), globals)
      ensures binds == old(binds) + BindCalls(globals)
    {
      ghost var r0, b0 := Model(), binds;
      var k := 0;
      while k < |globals|
        invariant 0 <= k <= |globals|
        invariant Model() == AnnounceAll(r0, globals[..k]) && binds == b0 + BindCalls(globals[..k])
      {
        assert globals[..k + 1][..k] == globals[..k];
        RegistryGlobal(globals[k]);
        k := k + 1;
      }
      assert globals[..k] == globals;
    }
  }

  /** struct lock_surface with the two emulator flags it owns through its
      embedded struct gbcc. */
  class LockSurface {
    var width: nat
    var height: nat
    var configured: bool
    var locked: bool
    var running: bool
    var shouldQuit: bool
    var emulatorQuit: bool
    var animating: bool
    var calls: seq<Call>

    function Model(): LockState
      reads this
    {
      LockState(width, height, configured, locked, running, shouldQuit, emulatorQuit, animating, calls)
    }

    /** `struct lock_surface ls = { .running = true }` and `gbc->quit = false`. */
    constructor ()
      ensures Model() == LockState(0, 0, false, false, true, false, false, false, [])
    {
      width, height := 0, 0;
      configured, locked, running, shouldQuit := false, false, true, false;
      emulatorQuit, animating := false, false;
      calls := [];
    }

    /** Appends one call to the log. */
    method Record(c: Call)
      modifies this`calls
      ensures calls == old(calls) + [c]
    {
      calls := calls + [c];
    }

    /** keyboard_key. */
    method KeyboardKey(key: nat, state: nat)
      modifies this
      ensures Model() == HandleKey(old(Model()), key, state)
    {
      var pressed := state == KeyStatePressed;
      if key == 44 {
        Record(ProcessKey(A, pressed));
      } else if key == 45 {
        Record(ProcessKey(B, pressed));
      } else if key == 28 {
        Record(ProcessKey(Start, pressed));
      } else if key == 57 {
        Record(ProcessKey(Select, pressed));
      } else if key == 103 {
        Record(ProcessKey(Up, pressed));
      } else if key == 108 {
        Record(ProcessKey(Down, pressed));
      } else if key == 105 {
        Record(ProcessKey(Left, pressed));
      } else if key == 106 {
        Record(ProcessKey(Right, pressed));
      } else if key == EscKey {
        if pressed {
          shouldQuit := true;
        }
      }
    }

    /** lock_locked. */
    method LockLocked()
      modifies this
      ensures Model() == old(Model()).(locked := true)
    {
      locked := true;
    }

    /** surf_configure; `fatal` stands for exit(1). */
    method SurfConfigure(serial: nat, w: nat, h: nat, windowOk: bool, glOk: bool) returns (fatal: bool)
      modifies this
      ensures Handled(Model(), fatal) == HandleConfigure(old(Model()), serial, w, h, windowOk, glOk)
    {
      width, height := w, h;
      Record(AckConfigure(serial));
      Record(CreateEglWindow(w, h));
      if !windowOk {
        // "wl_egl_window_create failed"
        return true;
      }
      Record(SetupGl);
      if !glOk {
        // one of the EGL steps of setup_gl failed
        return true;
      }
      configured := true;
      fatal := false;
    }

    /** Calls the listener for one event; lock_finished is exit(1). */
    method HandleEvent(e: Event) returns (fatal: bool)
      modifies this
      ensures Handled(Model(), fatal) == Handle(old(Model()), e)
    {
      match e
      case Locked =>
        LockLocked();
        fatal := false;
      case Finished =>
        // "Lock failed"
        fatal := true;
      case Configure(serial, w, h, windowOk, glOk) =>
        fatal := SurfConfigure(serial, w, h, windowOk, glOk);
      case Key(key, state) =>
        KeyboardKey(key, state);
        fatal := false;
    }

    /** A roundtrip or dispatch: handles the events in order until one
        of them exits. */
    method Dispatch(events: seq<Event>) returns (fatal: bool)
      modifies this
      ensures Handled(Model(), fatal) == DispatchAll(old(Model()), events)
    {
      ghost var s0 := Model();
      fatal := false;
      var i := 0;
      while i < |events| && !fatal
        invariant 0 <= i <= |events|
        invariant Handled(Model(), fatal) == DispatchAll(s0, events[..i])
      {
        assert events[..i + 1][..i] == events[..i];
        fatal := HandleEvent(events[i]);
        i := i + 1;
      }
      if fatal {
        DispatchFatalFinal(s0, events, i);
      } else {
        assert events[..i] == events;
      }
    }

    /** From ext_session_lock_manager_v1_lock_session to the third
        roundtrip (LockPhase). */
    method Lock(afterLock: seq<Event>, afterSurface: seq<Event>) returns (fatal: bool)
      requires Model() == LockState(0, 0, false, false, true, false, false, false, [])
      modifies this
      ensures Handled(Model(), fatal) == LockPhase(afterLock, afterSurface)
    {
      Record(LockRequest);
      assert Model() == Requested();
      fatal := Dispatch(afterLock);
      ghost var h := DispatchAll(Requested(), afterLock);
      assert Model() == h.s && fatal == h.fatal;
      if !fatal {
        Record(CreateSurface);
        Record(GetLockSurface);
        assert Model() == h.s.(calls := h.s.calls + [CreateSurface, GetLockSurface]);
        fatal := Dispatch(afterSurface);
      }
    }

    /** From the lock request to the end of the main loop (SessionRun). */
    method Run(afterLock: seq<Event>, afterSurface: seq<Event>, ticks: seq<Tick>) returns (halt: Halt)
      requires Model() == LockState(0, 0, false, false, true, false, false, false, [])
      modifies this
      ensures Model() == SessionRun(afterLock, afterSurface, ticks).s && halt == SessionRun(afterLock, afterSurface, ticks).halt
    {
      var fatal := Lock(afterLock, afterSurface);
      if fatal {
        return Fatal;
      }
      Record(GetKeyboard);
      var time, elapsed;
      time, elapsed, halt := SessionLoop(ticks);
    }

    /** The unlock sequencer after drawing, on the loop's `time` and
        `elapsed_time`. */
    method Sequencer(t: Tick, time0: real, elapsed0: real) returns (time: real, elapsed: real)
      modifies this
      ensures Loop(Model(), time, elapsed, Going) == Sequence(old(Model()), time0, elapsed0, t)
    {
      time := time0;
      if t.memory == UnlockByte {
        shouldQuit := true;
      }
      if shouldQuit {
        time := time + elapsed0;
        if FadeStart <= time < FadeEnd {
          animating := true;
        } else if time >= UnlockAt {
          running := false;
          emulatorQuit := true;
          Record(UnlockAndDestroy);
        }
      }
      Record(Flush);
      elapsed := t.elapsed;
    }

    /** One pass of the main loop while it is running. */
    method Pass(t: Tick, time0: real, elapsed0: real) returns (time: real, elapsed: real, halt: Halt)
      requires running
      modifies this
      ensures Loop(Model(), time, elapsed, halt) == Iterate(Loop(old(Model()), time0, elapsed0, Going), t)
    {
      time, elapsed, halt := time0, elapsed0, Going;
      if !t.dispatchOk {
        halt := DispatchFailed;
      } else {
        var fatal := Dispatch(t.events);
        if fatal {
          halt := Fatal;
        } else {
          Record(Draw(width, height));
          time, elapsed := Sequencer(t, time0, elapsed0);
        }
      }
    }

    /** The main loop from `double time = 0` to its exit, over the given
        passes; returns the final `time` and `elapsed_time` and how it
        stopped (Going with `running` still set means the passes ran out). */
    method SessionLoop(ticks: seq<Tick>) returns (time: real, elapsed: real, halt: Halt)
      modifies this
      ensures Loop(Model(), time, elapsed, halt) == RunLoop(LoopStart(old(Model())), ticks)
    {
      ghost var start := LoopStart(Model());
      time, elapsed, halt := 0.0, 0.0, Going;
      var i := 0;
      while i < |ticks| && running && halt == Going
        invariant 0 <= i <= |ticks|
        invariant Loop(Model(), time, elapsed, halt) == RunLoop(start, ticks[..i])
      {
        assert ticks[..i + 1][..i] == ticks[..i];
        time, elapsed, halt := Pass(ticks[i], time, elapsed);
        i := i + 1;
      }
      if i < |ticks| {
        RunLoopStoppedFinal(start, ticks, i);
      } else {
        assert ticks[..i] == ticks;
      }
    }
  }

  // ---------------------------------------------------------------------
  // The whole program

  /** How a run ends: a process exit code, blocked for ever in
      pthread_join, or still in the render loop when the given passes run
      out. */
  datatype Outcome = Exit(code: int) | Blocked | StillRunning

  /** How a run ends, and every call made up to then. */
  datatype Ending = Ending(outcome: Outcome, calls: seq<Call>)

  /** wl_display_connect, the registry listener and the first roundtrip:
      binds the four globals the program needs as they are advertised and
      reports whether all four were found. */
  method Discover(globals: seq<Global>) returns (complete: bool, binds: seq<Call>)
    ensures complete <==> AllAdvertised(globals)
    ensures binds == BindCalls(globals)
  {
    var d := new Display();
    d.Roundtrip(globals);
    complete, binds := d.Model().Complete(), d.binds;
    GlobalsCompleteIff(globals);
  }

  /** The binds of the first roundtrip change none of the log's properties. */
  lemma BindsFirst(binds: seq<Call>, calls: seq<Call>)
    requires forall k :: 0 <= k < |binds| ==> binds[k].Bind?
    requires AckBeforeSetup(calls) && |calls| > 0
    ensures AckBeforeSetup(binds + calls)
    ensures multiset(binds + calls)[UnlockAndDestroy] == multiset(calls)[UnlockAndDestroy]
    ensures UnlockAndDestroy in binds + calls <==> UnlockAndDestroy in calls
    ensures (binds + calls)[|binds + calls| - 1] == calls[|calls| - 1] && (binds + calls)[|binds|] == calls[0]
  {
    assert AckBeforeSetup(binds);
    AckBeforeSetupAppend(binds, calls);
    assert multiset(binds + calls) == multiset(binds) + multiset(calls);
    assert UnlockAndDestroy !in binds;
  }

  /** main() from connecting to the display to its return, given the
      globals the first roundtrip advertises, the events of the second and
      third roundtrips, whether the seat yields a keyboard, whether the
      emulation thread has stopped on a fault (setting `gbc->quit` itself)
      by the time it is joined, and the loop's passes. Returns the outcome
      and every call made, in order. */
  method RunLocker(globals: seq<Global>, afterLock: seq<Event>, afterSurface: seq<Event>, keyboard: bool, faulted: bool, ticks: seq<Tick>)
    returns (outcome: Outcome, log: seq<Call>)
    ensures !(AllAdvertised(globals)) ==> outcome == Exit(1) && LockRequest !in log
    ensures LockRequest in log <==> AllAdvertised(globals)
    ensures outcome.Exit? ==> outcome.code == 0 || outcome.code == 1
    ensures AckBeforeSetup(log)
    ensures multiset(log)[UnlockAndDestroy] <= 1
    ensures UnlockAndDestroy in log ==> outcome == Exit(0)
    ensures outcome == Exit(0) ==> |log| > 0 && log[|log| - 1] == Disconnect
    ensures outcome == Exit(0) ==> UnlockAndDestroy in log || faulted
    ensures outcome == Exit(0) && UnlockAndDestroy !in log ==> exists k :: 0 <= k < |ticks| && !ticks[k].dispatchOk
    ensures outcome == Blocked ==>
      && !faulted && UnlockAndDestroy !in log
      && |log| > 0 && log[|log| - 1] == JoinEmulator
      && exists k :: 0 <= k < |ticks| && !ticks[k].dispatchOk
  {
    var complete, binds := Discover(globals);
    assert UnlockAndDestroy !in binds && LockRequest !in binds;
    assert multiset(binds)[UnlockAndDestroy] == 0;
    if !complete {
      // "Missing Wayland globals"
      return Exit(1), binds;
    }

    var outcome', calls := LockedSession(afterLock, afterSurface, keyboard, faulted, ticks);
    BindsFirst(binds, calls);
    outcome, log := outcome', binds + calls;
  }

  /** The lock phase, then, unless a handler exited, the keyboard request
      and the main loop over the given passes. */
  function SessionRun(afterLock: seq<Event>, afterSurface: seq<Event>, ticks: seq<Tick>): Loop
  {
    var h := LockPhase(afterLock, afterSurface);
    if h.fatal then Loop(h.s, 0.0, 0.0, Fatal)
    else RunLoop(LoopStart(h.s.(calls := h.s.calls + [GetKeyboard])), ticks)
  }

  /** After the lock phase and the loop, the lock request is still first in
      the log, the sequencer's invariant holds, a loop halted by a failed
      dispatch or by exit(1) is still running, and a failed dispatch has a
      failing pass as its witness. */
  lemma SessionFacts(afterLock: seq<Event>, afterSurface: seq<Event>, ticks: seq<Tick>)
    ensures var r := SessionRun(afterLock, afterSurface, ticks);
      && |r.s.calls| > 0 && r.s.calls[0] == LockRequest
      && SequencerInv(r)
      && (r.halt != Going ==> r.s.running)
      && (r.halt == DispatchFailed ==> exists k :: 0 <= k < |ticks| && !ticks[k].dispatchOk)
  {
    LockPhaseStart(afterLock, afterSurface);
    LockPhaseStep(afterLock, afterSurface);
    var h := LockPhase(afterLock, afterSurface);
    if !h.fatal {
      LoopFacts(LoopStart(h.s.(calls := h.s.calls + [GetKeyboard])), ticks);
    }
  }

  /** The loop keeps the invariant and the head of the log, stops on a
      failed dispatch only when some pass reported one, and is still
      running when it halts for any reason other than the release. */
  lemma LoopFacts(start: Loop, ticks: seq<Tick>)
    requires SequencerInv(start) && start.halt == Going && |start.s.calls| > 0
    ensures var r := RunLoop(start, ticks);
      && |r.s.calls| > 0 && r.s.calls[0] == start.s.calls[0]
      && SequencerInv(r)
      && (r.halt != Going ==> r.s.running)
      && (r.halt == DispatchFailed ==> exists k :: 0 <= k < |ticks| && !ticks[k].dispatchOk)
  {
    RunLoopKeepsInv(start, ticks);
    DispatchFailedWitness(start, ticks);
    RunLoopHead(start, ticks);
    RunLoopHaltRunning(start, ticks);
    var r := RunLoop(start, ticks);
    assert r.s.calls[0] == r.s.calls[..|start.s.calls|][0];
  }

  /** A failed dispatch or an exit(1) halts the loop while `running` is
      still set: only the release clears it. */
  lemma {:induction false} RunLoopHaltRunning(l: Loop, ts: seq<Tick>)
    requires l.halt != Going ==> l.s.running
    ensures RunLoop(l, ts).halt != Going ==> RunLoop(l, ts).s.running
  {
    if ts != [] {
      var m := RunLoop(l, ts[..|ts| - 1]);
      RunLoopHaltRunning(l, ts[..|ts| - 1]);
      if !m.Stopped() && ts[|ts| - 1].dispatchOk {
        DispatchStep(m.s, ts[|ts| - 1].events);
      }
    }
  }

  /** Appending the teardown keeps the log's properties and ends it with
      the disconnect. */
  lemma TeardownAfter(calls: seq<Call>, configured: bool, keyboard: bool)
    requires AckBeforeSetup(calls) && |calls| > 0
    ensures var r := calls + TeardownCalls(configured, keyboard);
      && AckBeforeSetup(r)
      && multiset(r)[UnlockAndDestroy] == multiset(calls)[UnlockAndDestroy]
      && (UnlockAndDestroy in r <==> UnlockAndDestroy in calls)
      && r[0] == calls[0] && r[|r| - 1] == Disconnect
  {
    var t := TeardownCalls(configured, keyboard);
    TeardownShape(configured, keyboard);
    assert AckBeforeSetup(calls + t) by {
      NoSetupAck(t);
      AckBeforeSetupAppend(calls, t);
    }
    assert multiset(calls + t)[UnlockAndDestroy] == multiset(calls)[UnlockAndDestroy] by {
      assert multiset(t)[UnlockAndDestroy] == 0;
      assert multiset(calls + t) == multiset(calls) + multiset(t);
    }
    assert (calls + t)[|calls + t| - 1] == t[|t| - 1];
  }

  /** main() after the render loop, as written: flush, wake the emulation
      thread and join it. The join returns only if `gbc->quit` is set, by
      the sequencer's release or by the emulation thread itself after a
      fault; otherwise the woken thread resumes its batch loop and main
      blocks in pthread_join for ever. After the join, the guarded
      teardown runs and main returns 0. */
  function Shutdown(s: LockState, keyboard: bool, faulted: bool): Ending
  {
    if s.emulatorQuit || faulted then Ending(Exit(0), s.calls + TeardownCalls(s.configured, keyboard))
    else Ending(Blocked, s.calls + [Flush, WakeEmulator, JoinEmulator])
  }

  /** main() once the globals are bound: the lock phase and the loop, then
      exit(1), still running, or the shutdown. */
  function SessionEnding(afterLock: seq<Event>, afterSurface: seq<Event>, keyboard: bool, faulted: bool, ticks: seq<Tick>): Ending
  {
    var r := SessionRun(afterLock, afterSurface, ticks);
    if r.halt == Fatal then Ending(Exit(1), r.s.calls)
    else if r.halt == Going && r.s.running then Ending(StillRunning, r.s.calls)
    else Shutdown(r.s, keyboard, faulted)
  }

  /** What every ending of main() after the globals check guarantees:
      the lock request is first and every GL setup follows its
      acknowledgement; the session is released at most once, and a
      released session always ends in a clean exit; a clean exit
      disconnects last and, without a release, needs both a failed
      dispatch and an emulator fault; a run that blocks in the join saw a
      failed dispatch, no fault and no release. */
  ghost predicate EndingOk(e: Ending, faulted: bool, ticks: seq<Tick>)
  {
    && |e.calls| > 0 && e.calls[0] == LockRequest
    && (e.outcome.Exit? ==> e.outcome.code == 0 || e.outcome.code == 1)
    && AckBeforeSetup(e.calls)
    && multiset(e.calls)[UnlockAndDestroy] <= 1
    && (UnlockAndDestroy in e.calls ==> e.outcome == Exit(0))
    && (e.outcome == Exit(0) ==> e.calls[|e.calls| - 1] == Disconnect)
    && (e.outcome == Exit(0) ==> UnlockAndDestroy in e.calls || faulted)
    && (e.outcome == Exit(0) && UnlockAndDestroy !in e.calls ==> exists k :: 0 <= k < |ticks| && !ticks[k].dispatchOk)
    && (e.outcome == Blocked ==>
          && !faulted && UnlockAndDestroy !in e.calls && e.calls[|e.calls| - 1] == JoinEmulator
          && exists k :: 0 <= k < |ticks| && !ticks[k].dispatchOk)
  }

  lemma {:induction false} EndingFacts(afterLock: seq<Event>, afterSurface: seq<Event>, keyboard: bool, faulted: bool, ticks: seq<Tick>)
    ensures EndingOk(SessionEnding(afterLock, afterSurface, keyboard, faulted, ticks), faulted, ticks)
  {
    var r := SessionRun(afterLock, afterSurface, ticks);
    SessionFacts(afterLock, afterSurface, ticks);
    if r.halt == Fatal || (r.halt == Going && r.s.running) {
      StoppedOk(r, faulted, ticks);
    } else if !r.s.emulatorQuit && !faulted {
      BlockedOk(r, faulted, ticks);
    } else {
      ShutdownOk(r, keyboard, faulted, ticks);
    }
  }

  /** Ending while still running, by exit(1) or with the passes used up. */
  lemma StoppedOk(r: Loop, faulted: bool, ticks: seq<Tick>)
    requires |r.s.calls| > 0 && r.s.calls[0] == LockRequest && SequencerInv(r) && r.s.running
    ensures EndingOk(Ending(if r.halt == Fatal then Exit(1) else StillRunning, r.s.calls), faulted, ticks)
  {
  }

  /** Blocking in the join: the loop stopped on a failed dispatch. */
  lemma BlockedOk(r: Loop, faulted: bool, ticks: seq<Tick>)
    requires |r.s.calls| > 0 && r.s.calls[0] == LockRequest && SequencerInv(r)
    requires r.halt == DispatchFailed && r.s.running && !faulted
    requires exists k :: 0 <= k < |ticks| && !ticks[k].dispatchOk
    ensures EndingOk(Ending(Blocked, r.s.calls + [Flush, WakeEmulator, JoinEmulator]), faulted, ticks)
  {
    var c := r.s.calls + [Flush, WakeEmulator, JoinEmulator];
    assert AckBeforeSetup(c) by {
      NoSetupAck([Flush, WakeEmulator, JoinEmulator]);
      AckBeforeSetupAppend(r.s.calls, [Flush, WakeEmulator, JoinEmulator]);
    }
    assert multiset(c) == multiset(r.s.calls) + multiset([Flush, WakeEmulator, JoinEmulator]);
  }

  /** The shutdown after the join returned. */
  lemma ShutdownOk(r: Loop, keyboard: bool, faulted: bool, ticks: seq<Tick>)
    requires |r.s.calls| > 0 && r.s.calls[0] == LockRequest && SequencerInv(r)
    requires r.halt != Fatal && !(r.halt == Going && r.s.running)
    requires r.halt == DispatchFailed ==> exists k :: 0 <= k < |ticks| && !ticks[k].dispatchOk
    requires r.halt != Going ==> r.s.running
    requires r.s.emulatorQuit || faulted
    ensures EndingOk(Ending(Exit(0), r.s.calls + TeardownCalls(r.s.configured, keyboard)), faulted, ticks)
  {
    TeardownAfter(r.s.calls, r.s.configured, keyboard);
  }

  /** main() once the globals are bound: locks, runs the loop and shuts
      down, returning how it ended and the calls made from the lock request
      on (SessionEnding, with the guarantees of EndingOk). */
  method LockedSession(afterLock: seq<Event>, afterSurface: seq<Event>, keyboard: bool, faulted: bool, ticks: seq<Tick>)
    returns (outcome: Outcome, calls: seq<Call>)
    ensures Ending(outcome, calls) == SessionEnding(afterLock, afterSurface, keyboard, faulted, ticks)
    ensures |calls| > 0 && calls[0] == LockRequest
    ensures outcome.Exit? ==> outcome.code == 0 || outcome.code == 1
    ensures AckBeforeSetup(calls)
    ensures multiset(calls)[UnlockAndDestroy] <= 1
    ensures UnlockAndDestroy in calls ==> outcome == Exit(0)
    ensures outcome == Exit(0) ==> calls[|calls| - 1] == Disconnect
    ensures outcome == Exit(0) ==> UnlockAndDestroy in calls || faulted
    ensures outcome == Exit(0) && UnlockAndDestroy !in calls ==> exists k :: 0 <= k < |ticks| && !ticks[k].dispatchOk
    ensures outcome == Blocked ==>
      && !faulted && UnlockAndDestroy !in calls && calls[|calls| - 1] == JoinEmulator
      && exists k :: 0 <= k < |ticks| && !ticks[k].dispatchOk
  {
    outcome, calls := RunSession(afterLock, afterSurface, keyboard, faulted, ticks);
    EndingFacts(afterLock, afterSurface, keyboard, faulted, ticks);
  }

  /** The lock surface's run followed by the shutdown of main.c. */
  method RunSession(afterLock: seq<Event>, afterSurface: seq<Event>, keyboard: bool, faulted: bool, ticks: seq<Tick>)
    returns (outcome: Outcome, calls: seq<Call>)
    ensures Ending(outcome, calls) == SessionEnding(afterLock, afterSurface, keyboard, faulted, ticks)
  {
    var ls := new LockSurface();
    var halt := ls.Run(afterLock, afterSurface, ticks);
    var loopCalls, running, configured, emulatorQuit := ls.calls, ls.running, ls.configured, ls.emulatorQuit;
    if halt == Fatal {
      outcome, calls := Exit(1), loopCalls;
    } else if halt == Going && running {
      outcome, calls := StillRunning, loopCalls;
    } else if !emulatorQuit && !faulted {
      // gbc->quit was never set: pthread_join does not return
      outcome, calls := Blocked, loopCalls + [Flush, WakeEmulator, JoinEmulator];
    } else {
      outcome, calls := Exit(0), loopCalls + TeardownCalls(configured, keyboard);
    }
  }

  // ---------------------------------------------------------------------
  // The shutdown, as written and as intended

  /** As written, a failed dispatch with no release and no emulator fault
      leaves main blocked in the join: the compositor connection is gone,
      yet the process never exits. */
  lemma DispatchFailureBlocks()
    ensures SessionEnding([], [], true, false, [Tick(false, [], 0, 0.0)]).outcome == Blocked
  {
    var t := Tick(false, [], 0, 0.0);
    var h := LockPhase([], []);
    assert !h.fatal && h.s.running && !h.s.emulatorQuit;
    var start := LoopStart(h.s.(calls := h.s.calls + [GetKeyboard]));
    assert [t][..0] == [];
    assert RunLoop(start, [t]) == Iterate(start, t);
    assert SessionRun([], [], [t]) == start.(halt := DispatchFailed);
  }

  /** The shutdown as evidently intended: `gbc->quit` is set before the
      emulation thread is woken, whatever ended the loop, so the thread
      leaves its batch loop and the join returns. */
  function ShutdownQuitFirst(s: LockState, keyboard: bool): Ending
  {
    Shutdown(s.(emulatorQuit := true), keyboard, false)
  }

  /** main() once the globals are bound, with the intended shutdown. */
  function SessionEndingQuitFirst(afterLock: seq<Event>, afterSurface: seq<Event>, keyboard: bool, ticks: seq<Tick>): Ending
  {
    var r := SessionRun(afterLock, afterSurface, ticks);
    if r.halt == Fatal then Ending(Exit(1), r.s.calls)
    else if r.halt == Going && r.s.running then Ending(StillRunning, r.s.calls)
    else ShutdownQuitFirst(r.s, keyboard)
  }

  /** With the quit flag set before the join, no run blocks: every run that
      leaves the loop tears down completely and disconnects last, and it
      differs from the source only where the source blocks. */
  lemma QuitFirstNeverBlocks(afterLock: seq<Event>, afterSurface: seq<Event>, keyboard: bool, faulted: bool, ticks: seq<Tick>)
    ensures var e := SessionEndingQuitFirst(afterLock, afterSurface, keyboard, ticks);
      && e.outcome != Blocked
      && (e.outcome == Exit(0) ==> |e.calls| > 0 && e.calls[|e.calls| - 1] == Disconnect)
      && (SessionEnding(afterLock, afterSurface, keyboard, faulted, ticks).outcome != Blocked ==>
            e == SessionEnding(afterLock, afterSurface, keyboard, faulted, ticks))
  {
    var r := SessionRun(afterLock, afterSurface, ticks);
    if !(r.halt == Fatal) && !(r.halt == Going && r.s.running) {
      TeardownShape(r.s.configured, keyboard);
    }
  }
}
