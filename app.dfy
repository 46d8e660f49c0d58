/**
 * The kiosk's screen and idle controller (`App` in Face+Chat/main.py).
 *
 * Tk's `after`/`after_cancel` scheduler is reduced to the set of idle
 * callbacks it still holds (`pending`) and the id the next `after` hands out
 * (`nextId`); wall-clock time is not modelled, a timeout is the scheduler
 * firing a pending callback. The screens' own `on_show`/`on_hide` bodies are
 * outside the controller: the controller's obligation is the order in which it
 * calls them, recorded in `hooks`.
 */
module App {
  import opened Wrappers
  import Camera

  const Home := "home"
  const Settings := "settings"
  const Idle := "idle"
  const Chat := "chat"

  /** The gear button's two labels. */
  const GearIcon := "\U{2699}"
  const BackArrow := "\U{27F5}"

  /** `idle_ms`: the inactivity timeout handed to `after`. */
  const IdleMs := 10000

  /** A lifecycle call the controller makes on a screen. */
  datatype Hook = OnShow(screen: string) | OnHide(screen: string)

  /** The controller's state. */
  datatype Ctl = Ctl(
    screens: set<string>,      // the names registered in `self.screens`
    current: Option<string>,   // `self.current`
    lastNonSettings: string,   // `self._last_non_settings`
    gear: string,              // the gear button's label
    idleAfter: Option<nat>,    // `self._idle_after`
    pending: set<nat>,         // idle callbacks the scheduler still holds
    nextId: nat,               // the id the next `after` returns
    cam: Camera.Cam,           // `self.camera`
    hooks: seq<Hook>,          // on_show / on_hide calls made so far, in order
    closed: bool)              // the window was destroyed

  /** Python's truthiness of `self.current`. */
  predicate HasCurrent(c: Ctl)
  {
    c.current.Some? && c.current.value != ""
  }

  function GearFor(name: string): string
  {
    if name == Settings then BackArrow else GearIcon
  }

  /** `_reset_idle_timer`: cancel the recorded idle callback, then arm a fresh one unless idle. */
  function AfterReset(c: Ctl): Ctl
  {
    var cancelled := if c.idleAfter.Some? then c.pending - {c.idleAfter.value} else c.pending;
    if c.current != Some(Idle) then
      c.(idleAfter := Some(c.nextId), pending := cancelled + {c.nextId}, nextId := c.nextId + 1)
    else
      c.(pending := cancelled)
  }

  /** Whether `show(name)` raises `KeyError`: the current or the requested screen is not registered. */
  predicate ShowRaises(c: Ctl, name: string)
  {
    (HasCurrent(c) && c.current.value !in c.screens) || name !in c.screens
  }

  /**
   * `show(name)`. The old screen is hidden and `current` reassigned before the
   * new screen is looked up, so an unregistered `name` leaves that partial state.
   */
  function AfterShow(c: Ctl, name: string): Ctl
  {
    if HasCurrent(c) && c.current.value !in c.screens then c
    else
      var hidden := if HasCurrent(c) then c.hooks + [OnHide(c.current.value)] else c.hooks;
      var c1 := c.(hooks := hidden,
                   lastNonSettings := if name != Settings then name else c.lastNonSettings,
                   current := Some(name));
      if name !in c.screens then c1
      else AfterReset(c1.(hooks := c1.hooks + [OnShow(name)], gear := GearFor(name)))
  }

  function AfterToggleSettings(c: Ctl): Ctl
  {
    if c.current == Some(Settings) then AfterShow(c, c.lastNonSettings) else AfterShow(c, Settings)
  }

  function AfterToggleChat(c: Ctl): Ctl
  {
    if c.current == Some(Chat) then AfterShow(c, Home) else AfterShow(c, Chat)
  }

  /** `_go_idle`: show the idle screen, then release the camera. */
  function AfterGoIdle(c: Ctl): Ctl
  {
    var s := AfterShow(c, Idle);
    if ShowRaises(c, Idle) then s else s.(cam := Camera.AfterRelease(s.cam))
  }

  /** `on_activity`: leave idle for home and reopen the camera, or else re-arm the idle timer. */
  function AfterActivity(c: Ctl, acq: Camera.Acquisition): Ctl
  {
    if c.current == Some(Idle) then
      var s := AfterShow(c, Home);
      if ShowRaises(c, Home) then s else s.(cam := Camera.AfterOpen(s.cam, acq))
    else
      AfterReset(c)
  }

  /** The scheduler runs the idle callback `id` (after `IdleMs` without activity), if it is still pending. */
  function AfterFire(c: Ctl, id: nat): Ctl
  {
    if id in c.pending then AfterGoIdle(c.(pending := c.pending - {id})) else c
  }

  function AfterClose(c: Ctl): Ctl
  {
    c.(cam := Camera.AfterRelease(c.cam), closed := true)
  }

  function AfterRegister(c: Ctl, name: string): Ctl
  {
    c.(screens := c.screens + {name})
  }

  /** `__init__`: open the camera, register the four screens, show home, reset the idle timer. */
  function Startup(opencvOk: bool, acq: Camera.Acquisition): Ctl
  {
    var cam := Camera.AfterOpen(Camera.Cam(opencvOk, None, 0), acq);
    var c0 := Ctl({}, None, Home, GearIcon, None, {}, 0, cam, [], false);
    var c1 := AfterRegister(AfterRegister(AfterRegister(AfterRegister(c0, Home), Settings), Idle), Chat);
    AfterReset(AfterShow(c1, Home))
  }

  /** Every `on_hide` closes the screen shown just before it, and shows and hides alternate. */
  ghost predicate Alternating(h: seq<Hook>)
  {
    forall i :: 0 <= i < |h| ==>
      (h[i].OnShow? <==> i % 2 == 0) && (i % 2 == 1 ==> h[i].screen == h[i - 1].screen)
  }

  /** The recorded idle callback id, as a set. */
  function Recorded(c: Ctl): set<nat>
  {
    if c.idleAfter.Some? then {c.idleAfter.value} else {}
  }

  /**
   * What holds between any two controller steps: the core screens are
   * registered, exactly one screen is shown and it is the current one,
   * `_last_non_settings` is the current screen unless that is settings, and the
   * only idle callback the scheduler may hold is the recorded one.
   */
  ghost predicate Core(c: Ctl)
  {
    && {Home, Settings, Idle, Chat} <= c.screens
    && "" !in c.screens
    && c.current.Some? && c.current.value in c.screens
    && c.lastNonSettings in c.screens
    && (c.current.value != Settings ==> c.lastNonSettings == c.current.value)
    && c.gear == GearFor(c.current.value)
    && (c.idleAfter.Some? ==> c.idleAfter.value < c.nextId)
    && c.pending <= Recorded(c)
    && Alternating(c.hooks) && |c.hooks| % 2 == 1 && c.hooks[|c.hooks| - 1] == OnShow(c.current.value)
  }

  /** The controller's invariant: no idle callback while idle, exactly the recorded one otherwise. */
  ghost predicate Inv(c: Ctl)
  {
    && Core(c)
    && (c.current.value == Idle ==> c.pending == {})
    && (c.current.value != Idle ==> c.idleAfter.Some? && c.pending == {c.idleAfter.value})
  }

  lemma {:induction false} AlternatingStep(h: seq<Hook>, cur: string, name: string)
    requires Alternating(h) && |h| % 2 == 1 && h[|h| - 1] == OnShow(cur)
    ensures Alternating(h + [OnHide(cur)] + [OnShow(name)])
    ensures |h + [OnHide(cur)] + [OnShow(name)]| % 2 == 1
  {
    var h' := h + [OnHide(cur)] + [OnShow(name)];
    forall i | 0 <= i < |h'|
      ensures (h'[i].OnShow? <==> i % 2 == 0) && (i % 2 == 1 ==> h'[i].screen == h'[i - 1].screen)
    {
      if i < |h| {
        assert h'[i] == h[i];
        if i % 2 == 1 { assert h'[i - 1] == h[i - 1]; }
      }
    }
  }

  /**
   * After `show(name)` of a registered screen: `name` is current, the old screen got
   * `on_hide` before `name` got `on_show`, `_last_non_settings` follows every
   * non-settings screen, and exactly one fresh idle callback is pending unless
   * `name` is the idle screen, where none is.
   */
  lemma ShowRegistered(c: Ctl, name: string)
    requires Core(c) && name in c.screens
    ensures Inv(AfterShow(c, name))
    ensures AfterShow(c, name).current == Some(name)
    ensures AfterShow(c, name).hooks == c.hooks + [OnHide(c.current.value), OnShow(name)]
    ensures AfterShow(c, name).lastNonSettings == if name == Settings then c.lastNonSettings else name
    ensures AfterShow(c, name).gear == if name == Settings then BackArrow else GearIcon
    ensures name == Idle ==> AfterShow(c, name).pending == {}
    ensures name != Idle ==> AfterShow(c, name).pending == {c.nextId} && AfterShow(c, name).idleAfter == Some(c.nextId)
    ensures AfterShow(c, name).cam == c.cam && AfterShow(c, name).screens == c.screens
  {
    AlternatingStep(c.hooks, c.current.value, name);
    assert c.hooks + [OnHide(c.current.value)] + [OnShow(name)] == c.hooks + [OnHide(c.current.value), OnShow(name)];
  }

  /**
   * `show` of an unregistered name has already hidden the old screen and moved
   * `current` when the lookup fails: no screen is shown any more, the old idle
   * callback is still pending, and the invariant is lost.
   */
  lemma ShowUnregistered(c: Ctl, name: string)
    requires Inv(c) && name !in c.screens
    ensures AfterShow(c, name).current == Some(name)
    ensures AfterShow(c, name).hooks == c.hooks + [OnHide(c.current.value)]
    ensures AfterShow(c, name).pending == c.pending
    ensures !Inv(AfterShow(c, name))
  {
  }

  /** From settings the toggle goes back to the last other screen, from anywhere else to settings. */
  lemma ToggleSettingsTarget(c: Ctl)
    requires Inv(c)
    ensures Inv(AfterToggleSettings(c))
    ensures c.current == Some(Settings) ==> AfterToggleSettings(c).current == Some(c.lastNonSettings)
    ensures c.current != Some(Settings) ==> AfterToggleSettings(c).current == Some(Settings)
  {
    if c.current == Some(Settings) {
      ShowRegistered(c, c.lastNonSettings);
    } else {
      ShowRegistered(c, Settings);
    }
  }

  /** Two settings toggles with nothing in between return to the starting screen. */
  lemma ToggleSettingsTwice(c: Ctl)
    requires Inv(c) && c.current != Some(Settings)
    ensures AfterToggleSettings(AfterToggleSettings(c)).current == c.current
    ensures Inv(AfterToggleSettings(AfterToggleSettings(c)))
  {
    ShowRegistered(c, Settings);
    var s := AfterToggleSettings(c);
    assert s.lastNonSettings == c.current.value;
    ShowRegistered(s, s.lastNonSettings);
  }

  /** The chat toggle lands on home from chat and on chat from anywhere else: never elsewhere. */
  lemma ToggleChatTarget(c: Ctl)
    requires Inv(c)
    ensures Inv(AfterToggleChat(c))
    ensures AfterToggleChat(c).current == if c.current == Some(Chat) then Some(Home) else Some(Chat)
  {
    if c.current == Some(Chat) {
      ShowRegistered(c, Home);
    } else {
      ShowRegistered(c, Chat);
    }
  }

  /**
   * Going idle shows the idle screen and releases the camera; `show("idle")` runs
   * `_reset_idle_timer` while idle, so no idle callback is left pending.
   */
  lemma GoIdleReleases(c: Ctl)
    requires Inv(c)
    ensures Inv(AfterGoIdle(c))
    ensures AfterGoIdle(c).current == Some(Idle)
    ensures AfterGoIdle(c).cam == Camera.AfterRelease(c.cam) && AfterGoIdle(c).cam.cap == None
    ensures AfterGoIdle(c).pending == {}
  {
    ShowRegistered(c, Idle);
  }

  /** Activity while idle shows home, whatever was shown before idling, and reopens the camera. */
  lemma ActivityWhileIdle(c: Ctl, acq: Camera.Acquisition)
    requires Inv(c) && c.current == Some(Idle)
    ensures Inv(AfterActivity(c, acq))
    ensures AfterActivity(c, acq).current == Some(Home)
    ensures AfterActivity(c, acq).cam == Camera.AfterOpen(c.cam, acq)
    ensures AfterActivity(c, acq).pending == {c.nextId}
  {
    ShowRegistered(c, Home);
  }

  /** Activity on any other screen only replaces the pending idle callback by a fresh one. */
  lemma ActivityWhileActive(c: Ctl, acq: Camera.Acquisition)
    requires Inv(c) && c.current != Some(Idle)
    ensures Inv(AfterActivity(c, acq))
    ensures AfterActivity(c, acq).current == c.current && AfterActivity(c, acq).hooks == c.hooks
    ensures AfterActivity(c, acq).cam == c.cam
    ensures AfterActivity(c, acq).pending == {c.nextId} && c.nextId !in c.pending
  {
  }

  /** The idle callback firing runs `_go_idle`; a cancelled id fires nothing. */
  lemma FireIdle(c: Ctl, id: nat)
    requires Inv(c)
    ensures Inv(AfterFire(c, id))
    ensures id in c.pending ==> AfterFire(c, id).current == Some(Idle) && AfterFire(c, id).cam.cap == None
    ensures id !in c.pending ==> AfterFire(c, id) == c
  {
    if id in c.pending {
      var c' := c.(pending := c.pending - {id});
      assert c'.pending == {};
      ShowRegistered(c', Idle);
    }
  }

  /** Startup leaves home shown once, an idle callback armed and the invariant established. */
  lemma StartupInv(opencvOk: bool, acq: Camera.Acquisition)
    ensures Inv(Startup(opencvOk, acq))
    ensures Startup(opencvOk, acq).current == Some(Home)
    ensures Startup(opencvOk, acq).hooks == [OnShow(Home)]
    ensures |Startup(opencvOk, acq).pending| == 1
  {
    var s := Startup(opencvOk, acq);
    assert s.pending == {1};
  }

  /** One input the controller reacts to after startup. */
  datatype Op =
    | SwitchTo(name: string)     // a navigation button calling `show`
    | ToggleSettingsOp           // the gear button
    | ToggleChatOp               // the centre button
    | Activity(acq: Camera.Acquisition)  // motion, button or key anywhere
    | Timeout(id: nat)           // the scheduler firing callback `id`

  function Step(c: Ctl, op: Op): Ctl
  {
    match op
    case SwitchTo(name) => AfterShow(c, name)
    case ToggleSettingsOp => AfterToggleSettings(c)
    case ToggleChatOp => AfterToggleChat(c)
    case Activity(acq) => AfterActivity(c, acq)
    case Timeout(id) => AfterFire(c, id)
  }

  function Run(c: Ctl, ops: seq<Op>): Ctl
    decreases |ops|
  {
    if ops == [] then c else Run(Step(c, ops[0]), ops[1..])
  }

  predicate Navigable(screens: set<string>, ops: seq<Op>)
  {
    forall k :: 0 <= k < |ops| && ops[k].SwitchTo? ==> ops[k].name in screens
  }

  lemma StepInv(c: Ctl, op: Op)
    requires Inv(c) && (op.SwitchTo? ==> op.name in c.screens)
    ensures Inv(Step(c, op)) && Step(c, op).screens == c.screens
    ensures c.hooks <= Step(c, op).hooks
  {
    match op {
      case SwitchTo(name) => ShowRegistered(c, name);
      case ToggleSettingsOp =>
        if c.current == Some(Settings) { ShowRegistered(c, c.lastNonSettings); } else { ShowRegistered(c, Settings); }
      case ToggleChatOp =>
        if c.current == Some(Chat) { ShowRegistered(c, Home); } else { ShowRegistered(c, Chat); }
      case Activity(acq) =>
        if c.current == Some(Idle) { ShowRegistered(c, Home); }
      case Timeout(id) =>
        if id in c.pending { ShowRegistered(c.(pending := c.pending - {id}), Idle); }
    }
  }

  /**
   * For every sequence of inputs that navigates only to registered screens:
   * exactly one screen is shown and it is the current one, every `on_hide`
   * matches the preceding `on_show`, the hook log only grows, and at most one
   * idle callback is ever pending (none while idle).
   */
  lemma {:induction false} RunInv(c: Ctl, ops: seq<Op>)
    requires Inv(c) && Navigable(c.screens, ops)
    ensures Inv(Run(c, ops))
    ensures c.hooks <= Run(c, ops).hooks
    ensures |Run(c, ops).pending| <= 1
    decreases |ops|
  {
    if ops != [] {
      StepInv(c, ops[0]);
      var c' := Step(c, ops[0]);
      assert Navigable(c'.screens, ops[1..]) by {
        forall k | 0 <= k < |ops[1..]| && ops[1..][k].SwitchTo? ensures ops[1..][k].name in c'.screens {
          assert ops[1..][k] == ops[k + 1];
        }
      }
      RunInv(c', ops[1..]);
    } else {
      assert c.pending == {} || c.pending == {c.idleAfter.value};
    }
  }

  /**
   * From home, the idle timeout shows the idle screen with the camera released;
   * the next key press shows home again with the camera reopened.
   */
  lemma IdleRoundTrip(opencvOk: bool)
    requires opencvOk
    ensures var s := Startup(opencvOk, Camera.Acquired(true));
            var idle := AfterFire(s, s.idleAfter.value);
            var back := AfterActivity(idle, Camera.Acquired(true));
            && Camera.IsOpen(s.cam.cap)
            && idle.current == Some(Idle) && idle.cam.cap == None
            && back.current == Some(Home) && Camera.IsOpen(back.cam.cap)
  {
    var s := Startup(opencvOk, Camera.Acquired(true));
    StartupInv(opencvOk, Camera.Acquired(true));
    FireIdle(s, s.idleAfter.value);
    ActivityWhileIdle(AfterFire(s, s.idleAfter.value), Camera.Acquired(true));
  }

  /** The window's controller: the fields of `App` that its methods update. */
  class AppWindow {
    var screens: set<string>
    var current: Option<string>
    var lastNonSettings: string
    var gear: string
    var idleAfter: Option<nat>
    var pending: set<nat>
    var nextId: nat
    ghost var hooks: seq<Hook>
    var closed: bool
    const camera: Camera.CameraManager

    ghost function View(): Ctl
      reads this, camera
    {
      Ctl(screens, current, lastNonSettings, gear, idleAfter, pending, nextId, camera.View(), hooks, closed)
    }

    constructor (opencvOk: bool, acq: Camera.Acquisition)
      ensures View() == Startup(opencvOk, acq)
      ensures Inv(View())
    {
      camera := new Camera.CameraManager(0, 1280, 720, opencvOk, acq);
      screens := {};
      current := None;
      lastNonSettings := Home;
      gear := GearIcon;
      idleAfter := None;
      pending := {};
      nextId := 0;
      hooks := [];
      closed := false;
      new;
      RegisterScreen(Home);
      RegisterScreen(Settings);
      RegisterScreen(Idle);
      RegisterScreen(Chat);
      var _ := Show(Home);
      ResetIdleTimer();
      StartupInv(opencvOk, acq);
    }

    method RegisterScreen(name: string)
      modifies this
      ensures View() == AfterRegister(old(View()), name)
    {
      screens := screens + {name};
    }

    method ResetIdleTimer()
      modifies this
      ensures View() == AfterReset(old(View()))
    {
      if idleAfter.Some? {
        pending := pending - {idleAfter.value};
      }
      if current != Some(Idle) {
        idleAfter := Some(nextId);
        pending := pending + {nextId};
        nextId := nextId + 1;
      }
    }

    /** Returns false when the screen lookup raised `KeyError`. */
    method Show(name: string) returns (ok: bool)
      modifies this
      ensures ok == !ShowRaises(old(View()), name)
      ensures View() == AfterShow(old(View()), name)
    {
      if current.Some? && current.value != "" {
        if current.value !in screens {
          return false;
        }
        hooks := hooks + [OnHide(current.value)];
      }
      if name != Settings {
        lastNonSettings := name;
      }
      current := Some(name);
      if name !in screens {
        return false;
      }
      hooks := hooks + [OnShow(name)];
      gear := if name == Settings then BackArrow else GearIcon;
      ResetIdleTimer();
      ok := true;
    }

    method ToggleSettings()
      modifies this
      ensures View() == AfterToggleSettings(old(View()))
    {
      if current == Some(Settings) {
        var _ := Show(lastNonSettings);
      } else {
        var _ := Show(Settings);
      }
    }

    method ToggleChat()
      modifies this
      ensures View() == AfterToggleChat(old(View()))
    {
      if current == Some(Chat) {
        var _ := Show(Home);
      } else {
        var _ := Show(Chat);
      }
    }

    method GoIdle()
      modifies this, camera
      ensures View() == AfterGoIdle(old(View()))
    {
      var ok := Show(Idle);
      if !ok {
        return;
      }
      camera.Release();
    }

    /** The scheduler running idle callback `id`. */
    method Fire(id: nat)
      modifies this, camera
      ensures View() == AfterFire(old(View()), id)
    {
      if id in pending {
        pending := pending - {id};
        GoIdle();
      }
    }

    method OnActivity(acq: Camera.Acquisition)
      modifies this, camera
      ensures View() == AfterActivity(old(View()), acq)
    {
      if current == Some(Idle) {
        var ok := Show(Home);
        if !ok {
          return;
        }
        camera.Open(acq);
      } else {
        ResetIdleTimer();
      }
    }

    method OnClose()
      modifies this, camera
      ensures View() == AfterClose(old(View()))
    {
      camera.Release();
      closed := true;
    }
  }
}
