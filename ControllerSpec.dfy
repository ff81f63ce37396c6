/**
 * The input-to-action state machine of the local player controller, one
 * function per event handler over a value `Ctl` that holds the controller's
 * fields together with the parts of the player entity, the world and the UI
 * that the handlers touch. Clocks, the raycast and the player's box are
 * inputs; the browser's timers are handles in sets of live timers; calls into
 * the UI are appended to a log.
 */
module ControllerSpec {
  import opened Wrappers
  import opened KeyEvents
  import opened KeyTable
  import opened Placement
  import opened Gestures

  /** Calls the controller makes on its collaborators. */
  datatype UiCall =
    | PointerLockRequest      // canvas.requestPointerLock()
    | PausePageOpened         // pm.openPageByID("pause")
    | InventoryShown          // playPage.showInventory()
    | InventoryClosed         // playPage.closeInventory()
    | HotbarNext              // hotbarUI.selectNext()
    | HotbarPrev              // hotbarUI.selectPrev()
    | FlyButtonLit(on: bool)  // moveBtns.activeFlyBtn(on)

  /** One sample of a touch: its time stamp and screen position. */
  datatype TouchSample = TouchSample(timeStamp: real, screenX: real, screenY: real)

  /** The device flag and the look scale per pixel (the sensitivity in
      radians divided by the canvas width, resp. height). */
  datatype Config = Config(touch: bool, yawScale: real, pitchScale: real)

  /** Whether a canvas and a move-button panel are bound. */
  datatype Bindings = Bindings(hasCanvas: bool, hasMoveBtns: bool)

  /** The pointer-lock session: `_locked` and the "pause on next unlock" arming. */
  datatype LockState = LockState(lockedFlag: bool, showStopPage: bool)

  /** The held-button intents (`mouseLeftBtnDown` is place, `mouseRightBtnDown`
      is destroy) and the handle of the repeat timer. */
  datatype Buttons = Buttons(placeArmed: bool, destroyArmed: bool, repeatTimer: Option<nat>)

  /** The live timers the controller started, and the next handle the
      browser hands out. */
  datatype TimerTable = TimerTable(liveIntervals: set<nat>, liveTimeouts: set<nat>, nextId: nat)

  /** Key bookkeeping, the double-press timestamps and the wheel clock. */
  datatype Keyboard = Keyboard(
    keys: Keys,
    spaceDown: Option<int>, spaceUp: Option<int>, moveDown: Option<int>, moveUp: Option<int>,
    doubleClickSpace: bool, doubleClickMove: bool,
    lastWheel: Option<int>)

  /** The touch emulation: `canvasBeginTouch`, `canvasLastTouchPos`,
      `canvasTouchMoveLen`, `canvasDestroying` and `canvasTouchTimer`. */
  datatype TouchSession = TouchSession(
    begin: Option<TouchSample>, last: Option<TouchSample>,
    moveLen: real, destroying: bool, timer: Option<nat>)

  /** The fields of the player entity the controller reads and writes. */
  datatype EntityState = EntityState(yaw: real, pitch: real, isFly: bool, isRun: bool, onHandItem: string)

  datatype Ctl = Ctl(
    cfg: Config, bind: Bindings, lock: LockState, btn: Buttons, timers: TimerTable,
    kb: Keyboard, ts: TouchSession, entity: EntityState, world: map<Cell, string>,
    ui: seq<UiCall>)

  function TimerSet(t: Option<nat>): set<nat> {
    if t.Some? then {t.value} else {}
  }

  /** The state right after construction. */
  function Initial(touch: bool, yawScale: real, pitchScale: real, hasCanvas: bool, hasMoveBtns: bool,
                   entity: EntityState, world: map<Cell, string>): (c: Ctl)
    ensures Valid(c)
    ensures !Locked(c) <==> !touch
    ensures c.ui == [] && c.world == world && c.entity == entity
  {
    Ctl(Config(touch, yawScale, pitchScale), Bindings(hasCanvas, hasMoveBtns),
        LockState(false, false), Buttons(false, false, None), TimerTable({}, {}, 1),
        Keyboard(map[], None, None, None, None, false, false, None),
        TouchSession(None, None, 0.0, false, None),
        entity, world, [])
  }

  /** The invariant every handler keeps: the repeat timer is live exactly
      while a place or destroy intent is held, at most one repeat interval
      and at most one long-press timeout are live, live handles are below
      the next handle, and the key table has the shape of the device. */
  ghost predicate Valid(c: Ctl) {
    TimersOk(c.btn, c.ts.timer, c.timers) && WellFormed(c.kb.keys, c.cfg.touch)
  }

  ghost predicate TimersOk(btn: Buttons, touchTimer: Option<nat>, t: TimerTable) {
    && (btn.repeatTimer.Some? <==> btn.placeArmed || btn.destroyArmed)
    && t.liveIntervals == TimerSet(btn.repeatTimer)
    && t.liveTimeouts <= TimerSet(touchTimer)
    && (forall id :: id in t.liveIntervals ==> id < t.nextId)
    && (forall id :: id in t.liveTimeouts ==> id < t.nextId)
  }

  // ---------------------------------------------------------------------
  // The browser's timers

  function ClearInterval(t: TimerTable, h: Option<nat>): TimerTable {
    t.(liveIntervals := t.liveIntervals - TimerSet(h))
  }

  /** `setInterval`: the new handle is `t.nextId`. */
  function SetInterval(t: TimerTable): TimerTable {
    t.(liveIntervals := t.liveIntervals + {t.nextId}, nextId := t.nextId + 1)
  }

  function ClearTimeout(t: TimerTable, h: Option<nat>): TimerTable {
    t.(liveTimeouts := t.liveTimeouts - TimerSet(h))
  }

  /** `setTimeout`: the new handle is `t.nextId`. */
  function SetTimeout(t: TimerTable): TimerTable {
    t.(liveTimeouts := t.liveTimeouts + {t.nextId}, nextId := t.nextId + 1)
  }

  // ---------------------------------------------------------------------
  // Activity gate and pointer lock

  /** The `locked` getter: input is active on a touch device or under pointer lock. */
  predicate Locked(c: Ctl) {
    c.cfg.touch || c.lock.lockedFlag
  }

  function RequestPointerLock(c: Ctl): Ctl {
    if !c.bind.hasCanvas || c.cfg.touch then c else c.(ui := c.ui + [PointerLockRequest])
  }

  /** `pointerlockchange`: `canvasHasLock` is whether the canvas now holds
      the pointer lock. */
  function PointerLockChange(c: Ctl, canvasHasLock: bool): Ctl {
    if Locked(c) == canvasHasLock then c
    else
      c.(ui := if !canvasHasLock && c.lock.showStopPage then c.ui + [PausePageOpened] else c.ui,
         lock := LockState(canvasHasLock, true))
  }

  /** `setCanvas`: unbinding the old canvas clears the long-press timer
      (and only that timer). */
  function SetCanvas(c: Ctl, present: bool): Ctl {
    var c1 := if c.bind.hasCanvas then
                c.(timers := ClearTimeout(c.timers, c.ts.timer), ts := c.ts.(timer := None))
              else c;
    c1.(bind := c1.bind.(hasCanvas := present))
  }

  function SetMoveBtns(c: Ctl, present: bool): Ctl {
    c.(bind := c.bind.(hasMoveBtns := present))
  }

  /** The hotbar's "selectBlock" listener: an empty slot holds air. */
  function SelectBlock(c: Ctl, item: Option<string>): Ctl {
    c.(entity := c.entity.(onHandItem := item.GetOr(Air)))
  }

  // ---------------------------------------------------------------------
  // Look

  /** `mousemove`: `dx`, `dy` are the pointer movement in pixels. */
  function MouseMove(c: Ctl, dx: real, dy: real): Ctl {
    if !Locked(c) then c
    else
      c.(entity := c.entity.(yaw := c.entity.yaw - dx * c.cfg.yawScale,
                             pitch := ClampPitch(c.entity.pitch - dy * c.cfg.pitchScale)))
  }

  // ---------------------------------------------------------------------
  // Block interaction

  /** One run of `destroyOrPlaceBlock`, given the raycast result and the
      player's rounded box at that moment. */
  function Tick(c: Ctl, ray: Option<Hit>, box: Box): Ctl {
    c.(world := ApplyWrite(c.world, TickWrite(c.btn.placeArmed, c.btn.destroyArmed, ray, box, c.entity.onHandItem)))
  }

  /** `mousedown`: button 0 arms destroy, button 2 arms place; one tick runs
      at once, and the repeat timer is replaced by a new one. */
  function MouseDown(c: Ctl, button: int, ray: Option<Hit>, box: Box): Ctl {
    if !Locked(c) then RequestPointerLock(c)
    else if button != 0 && button != 2 then c
    else
      var armed := Buttons(if button == 2 then true else c.btn.placeArmed,
                           if button == 0 then true else c.btn.destroyArmed,
                           c.btn.repeatTimer);
      RestartRepeatTimer(Tick(c.(btn := armed), ray, box))
  }

  /** Replace the repeat interval by a new one. */
  function RestartRepeatTimer(c: Ctl): Ctl {
    c.(btn := c.btn.(repeatTimer := Some(c.timers.nextId)),
       timers := SetInterval(ClearInterval(c.timers, c.btn.repeatTimer)))
  }

  /** `mouseup`. */
  function MouseUp(c: Ctl, button: int): Ctl {
    if !Locked(c) then c
    else
      var b := c.btn.(destroyArmed := if button == 0 then false else c.btn.destroyArmed,
                      placeArmed := if button == 2 then false else c.btn.placeArmed);
      if !(b.destroyArmed || b.placeArmed) && b.repeatTimer.Some? then
        c.(btn := b.(repeatTimer := None), timers := ClearInterval(c.timers, b.repeatTimer))
      else c.(btn := b)
  }

  /** The repeat interval firing; only a live interval fires. */
  function RepeatFire(c: Ctl, ray: Option<Hit>, box: Box): Ctl {
    if c.btn.repeatTimer.Some? && c.btn.repeatTimer.value in c.timers.liveIntervals then Tick(c, ray, box) else c
  }

  // ---------------------------------------------------------------------
  // Keys and the double-press toggles

  /** `toFlyMode(!isFly)` and the lit fly button; without a move panel the
      button call fails and the failure is swallowed. */
  function ToggleFly(c: Ctl): Ctl {
    c.(entity := c.entity.(isFly := !c.entity.isFly),
       ui := if c.bind.hasMoveBtns then c.ui + [FlyButtonLit(!c.entity.isFly)] else c.ui)
  }

  function SpaceKeyDown(c: Ctl, now: int): Ctl {
    var dbl := IsDoublePress(c.kb.spaceDown, c.kb.spaceUp, now);
    var c1 := if dbl then ToggleFly(c) else c;
    c1.(kb := c1.kb.(doubleClickSpace := dbl, spaceDown := Some(now)))
  }

  function MoveKeyDown(c: Ctl, now: int): Ctl {
    var dbl := IsDoublePress(c.kb.moveDown, c.kb.moveUp, now);
    c.(kb := c.kb.(doubleClickMove := dbl, moveDown := Some(now)),
       entity := c.entity.(isRun := if dbl then !c.entity.isRun else c.entity.isRun))
  }

  /** The inventory key: show the inventory when active (and disarm the
      pause page, since the unlock that follows is wanted), close it otherwise. */
  function InventoryKey(c: Ctl, e: KeyEvent): Ctl {
    if e.key == "E" || e.key == "e" then
      if Locked(c) then c.(lock := c.lock.(showStopPage := false), ui := c.ui + [InventoryShown])
      else c.(ui := c.ui + [InventoryClosed])
    else c
  }

  /** `keydown`; `now` is the clock reading of `new Date()`. */
  function KeyDown(c: Ctl, e: KeyEvent, now: int): Ctl {
    var c1 := InventoryKey(c, e);
    if !Locked(c1) then c1
    else
      var c2 := PressKeys(c1, e);
      var c3 := if e.key == " " then SpaceKeyDown(c2, now) else c2;
      if e.code == "KeyW" then MoveKeyDown(c3, now) else c3
  }

  /** The key-table bookkeeping of `keydown`. */
  function PressKeys(c: Ctl, e: KeyEvent): Ctl {
    c.(kb := c.kb.(keys := Press(c.kb.keys, e, c.cfg.touch)))
  }

  /** The key-table bookkeeping of `keyup`. */
  function ReleaseKeys(c: Ctl, e: KeyEvent): Ctl {
    c.(kb := c.kb.(keys := Release(c.kb.keys, e, c.cfg.touch)))
  }

  /** After a release: stamp the Space release time unless Space is still
      held, and the W release time unless W is still held, leaving run mode. */
  function ReleaseStamps(c: Ctl, now: int): Ctl {
    var spaceHeld := Held(c.kb.keys, Name("Space"));
    var wHeld := Held(c.kb.keys, Name("KeyW"));
    c.(kb := c.kb.(spaceUp := if spaceHeld then c.kb.spaceUp else Some(now),
                   moveUp := if wHeld then c.kb.moveUp else Some(now)),
       entity := c.entity.(isRun := if wHeld then c.entity.isRun else false))
  }

  /** `keyup`. */
  function KeyUp(c: Ctl, e: KeyEvent, now: int): Ctl {
    if !Locked(c) then c else ReleaseStamps(ReleaseKeys(c, e), now)
  }

  /** Key-down handling of the events `es`, in order. */
  function KeysDown(c: Ctl, es: seq<KeyEvent>, now: int): Ctl
    decreases |es|
  {
    if es == [] then c else KeyDown(KeysDown(c, es[..|es| - 1], now), es[|es| - 1], now)
  }

  /** Key-up handling of the events `es`, in order. */
  function KeysUp(c: Ctl, es: seq<KeyEvent>, now: int): Ctl
    decreases |es|
  {
    if es == [] then c else KeyUp(KeysUp(c, es[..|es| - 1], now), es[|es| - 1], now)
  }

  /** Pressing the first `n + 1` keys of `ks` is pressing the first `n`
      and then key `n`. */
  lemma KeysDownStep(c: Ctl, ks: seq<string>, n: nat, now: int)
    requires n < |ks|
    ensures KeysDown(c, SyntheticAll(ks)[..n + 1], now) ==
            KeyDown(KeysDown(c, SyntheticAll(ks)[..n], now), Synthetic(ks[n]), now)
  {
    var es := SyntheticAll(ks);
    assert es[..n + 1][..n] == es[..n];
  }

  /** Releasing the keys of `ks` from the last one down to key `i` is
      releasing them down to key `i + 1` and then key `i`. */
  lemma KeysUpStep(c: Ctl, ks: seq<string>, i: nat, now: int)
    requires i < |ks|
    ensures KeysUp(c, SyntheticAll(Reverse(ks))[..|ks| - i], now) ==
            KeyUp(KeysUp(c, SyntheticAll(Reverse(ks))[..|ks| - i - 1], now), Synthetic(ks[i]), now)
  {
    var es := SyntheticAll(Reverse(ks));
    assert es[..|ks| - i][..|ks| - i - 1] == es[..|ks| - i - 1];
  }

  /** A move button's "BtnPress" listener; without a canvas there is no
      document to dispatch to, and the first dispatch fails. */
  function MoveButtonPress(c: Ctl, b: MoveButton, now: int): Ctl {
    if !c.bind.hasCanvas then c else KeysDown(c, PressEvents(b), now)
  }

  /** A move button's "BtnUp" listener. */
  function MoveButtonUp(c: Ctl, b: MoveButton, now: int): Ctl {
    if !c.bind.hasCanvas then c else KeysUp(c, ReleaseEvents(b), now)
  }

  /** The "flyBtnDblPress" listener: leave fly mode and unlight the button. */
  function FlyButtonDoublePress(c: Ctl): Ctl {
    c.(entity := c.entity.(isFly := false),
       ui := if c.bind.hasMoveBtns then c.ui + [FlyButtonLit(false)] else c.ui)
  }

  // ---------------------------------------------------------------------
  // Wheel

  /** `wheel`: at most one hotbar change per 100 ms. */
  function Wheel(c: Ctl, deltaY: real, now: int): Ctl {
    if !Locked(c) || WheelRateLimited(c.kb.lastWheel, now) then c
    else
      c.(ui := c.ui + (if deltaY < 0.0 then [HotbarNext] else if deltaY > 0.0 then [HotbarPrev] else []),
         kb := c.kb.(lastWheel := Some(now)))
  }

  // ---------------------------------------------------------------------
  // Touch emulation

  /** A synthesized mouse button event, dispatched to the mouse handlers. */
  function ApplyMouse(c: Ctl, m: MouseEvt, ray: Option<Hit>, box: Box): Ctl {
    match m
    case ButtonDown(b) => MouseDown(c, b, ray, box)
    case ButtonUp(b) => MouseUp(c, b)
  }

  function ApplyMouseAll(c: Ctl, ms: seq<MouseEvt>, ray: Option<Hit>, box: Box): Ctl
    decreases ms
  {
    if ms == [] then c else ApplyMouseAll(ApplyMouse(c, ms[0], ray, box), ms[1..], ray, box)
  }

  /** `touchstart`: a new session and a fresh 300 ms long-press timer. */
  function TouchStart(c: Ctl, s: TouchSample): Ctl {
    RestartTouchTimer(c.(ts := c.ts.(begin := Some(s), last := Some(s), moveLen := 0.0, destroying := false)))
  }

  /** Replace the long-press timeout by a new one. */
  function RestartTouchTimer(c: Ctl): Ctl {
    c.(ts := c.ts.(timer := Some(c.timers.nextId)),
       timers := SetTimeout(ClearTimeout(c.timers, c.ts.timer)))
  }

  /** The long-press timer firing; only a live timeout fires. */
  function LongPressFire(c: Ctl, ray: Option<Hit>, box: Box): Ctl {
    if !(c.ts.timer.Some? && c.ts.timer.value in c.timers.liveTimeouts) then c
    else
      var c1 := c.(ts := c.ts.(destroying := c.ts.destroying || c.ts.moveLen < DragDistance, timer := None),
                   timers := ClearTimeout(c.timers, c.ts.timer));
      ApplyMouseAll(c1, LongPressEvents(c.ts.moveLen), ray, box)
  }

  /** `touchmove`: `dist` is the Euclidean length of the step from the last
      sample. The synthesized mouse move doubles the horizontal movement. */
  function TouchMove(c: Ctl, s: TouchSample, dist: real): Ctl {
    if c.ts.last.None? then c.(ts := c.ts.(last := Some(s)))
    else
      var last := c.ts.last.value;
      var c1 := MouseMove(c, 2.0 * (s.screenX - last.screenX), s.screenY - last.screenY);
      c1.(ts := c.ts.(moveLen := c.ts.moveLen + dist, last := Some(s)))
  }

  /** The look does not depend on the touch session. */
  lemma MouseMoveIgnoresTouch(c: Ctl, t: TouchSession, dx: real, dy: real)
    ensures MouseMove(c.(ts := t), dx, dy) == MouseMove(c, dx, dy).(ts := t)
  {
  }

  /** `touchend` (and `touchcancel`). Before any `touchstart` the source
      dereferences a null start sample and throws, changing nothing. The
      long-press timeout is cleared but its handle is kept. */
  function TouchEnd(c: Ctl, s: TouchSample, ray: Option<Hit>, box: Box): Ctl {
    if c.ts.begin.None? then c
    else
      var c1 := TouchEndClicks(c, s, ray, box);
      c1.(timers := ClearTimeout(c1.timers, c1.ts.timer), ts := c1.ts.(last := None))
  }

  /** The mouse clicks `touchend` synthesizes, applied. */
  function TouchEndClicks(c: Ctl, s: TouchSample, ray: Option<Hit>, box: Box): Ctl
    requires c.ts.begin.Some?
  {
    ApplyMouseAll(c, TouchEndEvents(s.timeStamp - c.ts.begin.value.timeStamp, c.ts.destroying), ray, box)
  }

  // ---------------------------------------------------------------------
  // Dispatch

  /** Every event the controller reacts to. */
  datatype Event =
    | MouseMoved(dx: real, dy: real)
    | MousePressed(button: int, ray: Option<Hit>, box: Box)
    | MouseReleased(button: int)
    | KeyPressed(e: KeyEvent, now: int)
    | KeyReleased(e: KeyEvent, now: int)
    | WheelTurned(deltaY: real, now: int)
    | PointerLockChanged(canvasHasLock: bool)
    | TouchStarted(s: TouchSample)
    | TouchMoved(s: TouchSample, dist: real)
    | TouchEnded(s: TouchSample, ray: Option<Hit>, box: Box)
    | LongPressFired(ray: Option<Hit>, box: Box)
    | RepeatFired(ray: Option<Hit>, box: Box)
    | CanvasSet(present: bool)
    | MoveButtonsSet(present: bool)
    | MoveButtonPressed(b: MoveButton, now: int)
    | MoveButtonReleased(b: MoveButton, now: int)
    | FlyButtonDoublePressed
    | BlockSelected(item: Option<string>)

  function Step(c: Ctl, ev: Event): Ctl {
    match ev
    case MouseMoved(dx, dy) => MouseMove(c, dx, dy)
    case MousePressed(b, ray, box) => MouseDown(c, b, ray, box)
    case MouseReleased(b) => MouseUp(c, b)
    case KeyPressed(e, now) => KeyDown(c, e, now)
    case KeyReleased(e, now) => KeyUp(c, e, now)
    case WheelTurned(d, now) => Wheel(c, d, now)
    case PointerLockChanged(l) => PointerLockChange(c, l)
    case TouchStarted(s) => TouchStart(c, s)
    case TouchMoved(s, dist) => TouchMove(c, s, dist)
    case TouchEnded(s, ray, box) => TouchEnd(c, s, ray, box)
    case LongPressFired(ray, box) => LongPressFire(c, ray, box)
    case RepeatFired(ray, box) => RepeatFire(c, ray, box)
    case CanvasSet(p) => SetCanvas(c, p)
    case MoveButtonsSet(p) => SetMoveBtns(c, p)
    case MoveButtonPressed(b, now) => MoveButtonPress(c, b, now)
    case MoveButtonReleased(b, now) => MoveButtonUp(c, b, now)
    case FlyButtonDoublePressed => FlyButtonDoublePress(c)
    case BlockSelected(item) => SelectBlock(c, item)
  }

  function Run(c: Ctl, evs: seq<Event>): Ctl
    decreases evs
  {
    if evs == [] then c else Run(Step(c, evs[0]), evs[1..])
  }
}
