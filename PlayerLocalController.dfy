/**
 * The controller as an object whose handlers update its fields in place.
 * Each handler is proved to leave the object in the state the matching
 * function of `ControllerSpec` computes from the old state, and to keep the
 * invariant `ControllerSpec.Valid`; what the handlers promise is proved about
 * those functions in `ControllerProps` and `ControllerInvariant`.
 */
module LocalController {
  import opened Wrappers
  import opened KeyEvents
  import opened KeyTable
  import opened Placement
  import opened Gestures
  import Spec = ControllerSpec
  import Inv = ControllerInvariant

  class PlayerLocalController {
    /** `window.isTouchDevice` and the look scale per pixel. */
    const cfg: Spec.Config

    /** Whether a canvas and a move-button panel are bound. */
    var bind: Spec.Bindings
    /** `_locked` and `showStopPage`. */
    var lock: Spec.LockState
    /** `mouseLeftBtnDown` (place), `mouseRightBtnDown` (destroy) and
        `destroyOrPlaceBlockTimer`. */
    var btn: Spec.Buttons
    /** The browser's timer table: live interval and timeout handles, and
        the next handle it gives out. */
    var timers: Spec.TimerTable
    /** `keys`, `spaceDownTime`, `spaceUpTime`, `moveDownTime`,
        `moveUpTime`, `doubleClickSpace`, `doubleClickMove` and `lastWeelTime`. */
    var kb: Spec.Keyboard
    /** `canvasBeginTouch`, `canvasLastTouchPos`, `canvasTouchMoveLen`,
        `canvasDestroying` and `canvasTouchTimer`. */
    var ts: Spec.TouchSession
    /** The player entity's fields the handlers use, the world's cells and
        the calls made on the UI, in order. */
    var entity: Spec.EntityState
    var world: map<Cell, string>
    var ui: seq<Spec.UiCall>

    /** The object's state as a value. */
    function State(): Spec.Ctl
      reads this
    {
      Spec.Ctl(cfg, bind, lock, btn, timers, kb, ts, entity, world, ui)
    }

    ghost predicate Valid()
      reads this
    {
      Spec.Valid(State())
    }

    constructor(touch: bool, yawScale: real, pitchScale: real, hasCanvas: bool, hasMoveBtns: bool,
                entity: Spec.EntityState, world: map<Cell, string>)
      ensures State() == Spec.Initial(touch, yawScale, pitchScale, hasCanvas, hasMoveBtns, entity, world)
      ensures Valid()
    {
      cfg := Spec.Config(touch, yawScale, pitchScale);
      bind := Spec.Bindings(hasCanvas, hasMoveBtns);
      lock := Spec.LockState(false, false);
      btn := Spec.Buttons(false, false, None);
      timers := Spec.TimerTable({}, {}, 1);
      kb := Spec.Keyboard(map[], None, None, None, None, false, false, None);
      ts := Spec.TouchSession(None, None, 0.0, false, None);
      this.entity, this.world, ui := entity, world, [];
    }

    /** The `locked` getter. */
    predicate Locked()
      reads this
      ensures Locked() == Spec.Locked(State())
    {
      cfg.touch || lock.lockedFlag
    }

    // -------------------------------------------------------------------
    // The browser's timers

    method SetInterval() returns (id: nat)
      modifies this
      ensures id == old(timers.nextId)
      ensures State() == old(State()).(timers := Spec.SetInterval(old(timers)))
    {
      id := timers.nextId;
      timers := timers.(liveIntervals := timers.liveIntervals + {id}, nextId := id + 1);
    }

    method ClearInterval(h: Option<nat>)
      modifies this
      ensures State() == old(State()).(timers := Spec.ClearInterval(old(timers), h))
    {
      timers := timers.(liveIntervals := timers.liveIntervals - Spec.TimerSet(h));
    }

    method SetTimeout() returns (id: nat)
      modifies this
      ensures id == old(timers.nextId)
      ensures State() == old(State()).(timers := Spec.SetTimeout(old(timers)))
    {
      id := timers.nextId;
      timers := timers.(liveTimeouts := timers.liveTimeouts + {id}, nextId := id + 1);
    }

    method ClearTimeout(h: Option<nat>)
      modifies this
      ensures State() == old(State()).(timers := Spec.ClearTimeout(old(timers), h))
    {
      timers := timers.(liveTimeouts := timers.liveTimeouts - Spec.TimerSet(h));
    }

    // -------------------------------------------------------------------
    // Pointer lock and bindings

    method RequestPointerLock()
      modifies this
      ensures State() == Spec.RequestPointerLock(old(State()))
    {
      if !bind.hasCanvas || cfg.touch {
        return;
      }
      ui := ui + [Spec.PointerLockRequest];
    }

    method PointerLockChange(canvasHasLock: bool)
      requires Valid()
      modifies this
      ensures State() == Spec.PointerLockChange(old(State()), canvasHasLock)
      ensures Valid()
    {
      if Locked() == canvasHasLock {
        return;
      }
      if !canvasHasLock && lock.showStopPage {
        ui := ui + [Spec.PausePageOpened];
      }
      lock := lock.(showStopPage := true);
      lock := lock.(lockedFlag := canvasHasLock);
    }

    method SetCanvas(present: bool)
      requires Valid()
      modifies this
      ensures State() == Spec.SetCanvas(old(State()), present)
      ensures Valid()
    {
      if bind.hasCanvas {
        ClearTimeout(ts.timer);
        ts := ts.(timer := None);
      }
      bind := bind.(hasCanvas := present);
    }

    method SetMoveBtns(present: bool)
      requires Valid()
      modifies this
      ensures State() == Spec.SetMoveBtns(old(State()), present)
      ensures Valid()
    {
      bind := bind.(hasMoveBtns := present);
    }

    /** The hotbar's "selectBlock" listener. */
    method SelectBlock(item: Option<string>)
      requires Valid()
      modifies this
      ensures State() == Spec.SelectBlock(old(State()), item)
      ensures Valid()
    {
      entity := entity.(onHandItem := item.GetOr(Air));
    }

    // -------------------------------------------------------------------
    // Look and block interaction

    method MouseMove(dx: real, dy: real)
      requires Valid()
      modifies this
      ensures State() == Spec.MouseMove(old(State()), dx, dy)
      ensures Valid()
    {
      if !Locked() {
        return;
      }
      var yaw := entity.yaw - dx * cfg.yawScale;
      var pitch := entity.pitch - dy * cfg.pitchScale;
      if pitch > HalfPi {
        pitch := HalfPi;
      } else if pitch < -HalfPi {
        pitch := -HalfPi;
      }
      entity := entity.(yaw := yaw, pitch := pitch);
    }

    /** `destroyOrPlaceBlock`, given the raycast result and the player's
        rounded box. */
    method DestroyOrPlaceBlock(ray: Option<Hit>, box: Box)
      modifies this
      ensures State() == Spec.Tick(old(State()), ray, box)
    {
      if ray.None? || ray.value.axis == "" {
        return;
      }
      var pos := ray.value.cell;
      if btn.placeArmed {
        pos := PlacementCell(ray.value);
        if InsideBox(pos, box) {
          return;
        }
        var blockName := entity.onHandItem;
        if blockName != Air {
          world := world[pos := blockName];
        }
      } else if btn.destroyArmed {
        world := world[pos := Air];
      }
    }

    method MouseDown(button: int, ray: Option<Hit>, box: Box)
      requires Valid()
      modifies this
      ensures State() == Spec.MouseDown(old(State()), button, ray, box)
      ensures Valid()
    {
      if !Locked() {
        RequestPointerLock();
        return;
      }
      if button != 0 && button != 2 {
        return;
      }
      Inv.MouseDownValid(State(), button, ray, box);
      if button == 0 {
        btn := btn.(destroyArmed := true);
      }
      if button == 2 {
        btn := btn.(placeArmed := true);
      }
      DestroyOrPlaceBlock(ray, box);
      RestartRepeatTimer();
    }

    /** Clear the repeat interval and start a new one. */
    method RestartRepeatTimer()
      modifies this
      ensures State() == Spec.RestartRepeatTimer(old(State()))
    {
      ClearInterval(btn.repeatTimer);
      var id := SetInterval();
      btn := btn.(repeatTimer := Some(id));
    }

    method MouseUp(button: int)
      requires Valid()
      modifies this
      ensures State() == Spec.MouseUp(old(State()), button)
      ensures Valid()
    {
      if !Locked() {
        return;
      }
      if button == 0 {
        btn := btn.(destroyArmed := false);
      }
      if button == 2 {
        btn := btn.(placeArmed := false);
      }
      if !(btn.destroyArmed || btn.placeArmed) && btn.repeatTimer.Some? {
        ClearInterval(btn.repeatTimer);
        btn := btn.(repeatTimer := None);
      }
    }

    /** The repeat interval firing. */
    method FireRepeat(ray: Option<Hit>, box: Box)
      requires Valid()
      modifies this
      ensures State() == Spec.RepeatFire(old(State()), ray, box)
      ensures Valid()
    {
      if btn.repeatTimer.Some? && btn.repeatTimer.value in timers.liveIntervals {
        DestroyOrPlaceBlock(ray, box);
      }
    }

    // -------------------------------------------------------------------
    // Keys and the double-press toggles

    /** The key-table bookkeeping of `keydown`, in place. */
    method PressKey(e: KeyEvent)
      modifies this
      ensures State() == Spec.PressKeys(old(State()), e)
    {
      var keys := kb.keys;
      if cfg.touch {
        if !e.repeat {
          if e.keyCode != 0 {
            keys := keys[Code(e.keyCode) := Count(NumOr(keys, Code(e.keyCode), 0) + 1)];
          }
          var v := Count(NumOr(keys, Name(e.key), 0) + 1);
          keys := keys[Name(e.code) := v];
          keys := keys[Name(e.key) := v];
        }
      } else {
        if e.keyCode != 0 {
          keys := keys[Code(e.keyCode) := Flag(true)];
        }
        keys := keys[Name(e.code) := Flag(true)];
        keys := keys[Name(e.key) := Flag(true)];
      }
      kb := kb.(keys := keys);
    }

    /** The key-table bookkeeping of `keyup`, in place. */
    method ReleaseKey(e: KeyEvent)
      modifies this
      ensures State() == Spec.ReleaseKeys(old(State()), e)
    {
      var keys := kb.keys;
      if cfg.touch {
        if e.keyCode != 0 {
          keys := keys[Code(e.keyCode) := Count(NumOr(keys, Code(e.keyCode), 1) - 1)];
        }
        var v := Count(NumOr(keys, Name(e.key), 1) - 1);
        keys := keys[Name(e.code) := v];
        keys := keys[Name(e.key) := v];
      } else {
        if e.keyCode != 0 {
          keys := keys[Code(e.keyCode) := Flag(false)];
        }
        keys := keys[Name(e.code) := Flag(false)];
        keys := keys[Name(e.key) := Flag(false)];
      }
      kb := kb.(keys := keys);
    }

    /** The inventory key of `keydown`. */
    method InventoryKey(e: KeyEvent)
      modifies this
      ensures State() == Spec.InventoryKey(old(State()), e)
    {
      if e.key == "E" || e.key == "e" {
        if Locked() {
          lock := lock.(showStopPage := false);
          ui := ui + [Spec.InventoryShown];
        } else {
          ui := ui + [Spec.InventoryClosed];
        }
      }
    }

    /** The Space branch of `keydown`: the fly toggle. */
    method SpaceKeyDown(now: int)
      modifies this
      ensures State() == Spec.SpaceKeyDown(old(State()), now)
    {
      var dbl := IsDoublePress(kb.spaceDown, kb.spaceUp, now);
      kb := kb.(doubleClickSpace := dbl);
      if kb.doubleClickSpace {
        entity := entity.(isFly := !entity.isFly);
        if bind.hasMoveBtns {
          ui := ui + [Spec.FlyButtonLit(entity.isFly)];
        }
      }
      kb := kb.(spaceDown := Some(now));
    }

    /** The KeyW branch of `keydown`: the run toggle. */
    method MoveKeyDown(now: int)
      modifies this
      ensures State() == Spec.MoveKeyDown(old(State()), now)
    {
      var dbl := IsDoublePress(kb.moveDown, kb.moveUp, now);
      kb := kb.(doubleClickMove := dbl);
      if kb.doubleClickMove {
        entity := entity.(isRun := !entity.isRun);
      }
      kb := kb.(moveDown := Some(now));
    }

    /** `keydown`; `now` is the clock reading. */
    method KeyDown(e: KeyEvent, now: int)
      requires Valid()
      modifies this
      ensures State() == Spec.KeyDown(old(State()), e, now)
      ensures Valid()
    {
      Inv.KeyDownValid(State(), e, now);
      InventoryKey(e);
      if !Locked() {
        return;
      }
      PressKey(e);
      if e.key == " " {
        SpaceKeyDown(now);
      }
      if e.code == "KeyW" {
        MoveKeyDown(now);
      }
    }

    /** The time stamps of `keyup`. */
    method ReleaseStamps(now: int)
      modifies this
      ensures State() == Spec.ReleaseStamps(old(State()), now)
    {
      if !Held(kb.keys, Name("Space")) {
        kb := kb.(spaceUp := Some(now));
      }
      if !Held(kb.keys, Name("KeyW")) {
        kb := kb.(moveUp := Some(now));
        entity := entity.(isRun := false);
      }
    }

    /** `keyup`. */
    method KeyUp(e: KeyEvent, now: int)
      requires Valid()
      modifies this
      ensures State() == Spec.KeyUp(old(State()), e, now)
      ensures Valid()
    {
      Inv.KeyUpValid(State(), e, now);
      if !Locked() {
        return;
      }
      ReleaseKey(e);
      ReleaseStamps(now);
    }

    /** `dispatchKeyEvent(type, key)` with the default `code`, `keyCode`
        and `repeat`, delivered to this controller's key handlers. */
    method DispatchKeyEvent(down: bool, key: string, now: int)
      requires Valid() && bind.hasCanvas
      modifies this
      ensures bind == old(bind)
      ensures down ==> State() == Spec.KeyDown(old(State()), Synthetic(key), now)
      ensures !down ==> State() == Spec.KeyUp(old(State()), Synthetic(key), now)
      ensures Valid()
    {
      var e := KeyEvent(key, DefaultCode(key), DefaultKeyCode(key), false);
      if down {
        KeyDown(e, now);
      } else {
        KeyUp(e, now);
      }
    }

    /** A move button's "BtnPress" listener: its keys go down in order. */
    method MoveButtonPress(b: MoveButton, now: int)
      requires Valid()
      modifies this
      ensures State() == Spec.MoveButtonPress(old(State()), b, now)
      ensures Valid()
    {
      if !bind.hasCanvas {
        return;
      }
      PressKeysInOrder(ButtonKeys(b), now);
    }

    /** `keys.forEach(key => this.dispatchKeyEvent("down", key))`. */
    method PressKeysInOrder(ks: seq<string>, now: int)
      requires Valid() && bind.hasCanvas
      modifies this
      ensures State() == Spec.KeysDown(old(State()), SyntheticAll(ks), now)
      ensures Valid()
    {
      ghost var s0 := State();
      var i := 0;
      while i < |ks|
        invariant 0 <= i <= |ks|
        invariant State() == Spec.KeysDown(s0, SyntheticAll(ks)[..i], now)
        invariant Valid() && bind.hasCanvas
      {
        Spec.KeysDownStep(s0, ks, i, now);
        DispatchKeyEvent(true, ks[i], now);
        i := i + 1;
      }
      assert SyntheticAll(ks)[..|ks|] == SyntheticAll(ks);
    }

    /** A move button's "BtnUp" listener: its keys go up last one first. */
    method MoveButtonUp(b: MoveButton, now: int)
      requires Valid()
      modifies this
      ensures State() == Spec.MoveButtonUp(old(State()), b, now)
      ensures Valid()
    {
      if !bind.hasCanvas {
        return;
      }
      ReleaseKeysReversed(ButtonKeys(b), now);
    }

    /** `for (let i = keys.length - 1; i >= 0; --i) this.dispatchKeyEvent("up", keys[i])`. */
    method ReleaseKeysReversed(ks: seq<string>, now: int)
      requires Valid() && bind.hasCanvas
      modifies this
      ensures State() == Spec.KeysUp(old(State()), SyntheticAll(Reverse(ks)), now)
      ensures Valid()
    {
      ghost var s0 := State();
      var i := |ks|;
      while i > 0
        invariant 0 <= i <= |ks|
        invariant State() == Spec.KeysUp(s0, SyntheticAll(Reverse(ks))[..|ks| - i], now)
        invariant Valid() && bind.hasCanvas
      {
        i := i - 1;
        Spec.KeysUpStep(s0, ks, i, now);
        DispatchKeyEvent(false, ks[i], now);
      }
      assert SyntheticAll(Reverse(ks))[..|ks|] == SyntheticAll(Reverse(ks));
    }

    /** The "flyBtnDblPress" listener. */
    method FlyButtonDoublePress()
      requires Valid()
      modifies this
      ensures State() == Spec.FlyButtonDoublePress(old(State()))
      ensures Valid()
    {
      entity := entity.(isFly := false);
      if bind.hasMoveBtns {
        ui := ui + [Spec.FlyButtonLit(false)];
      }
    }

    /** `wheel`. */
    method Wheel(deltaY: real, now: int)
      requires Valid()
      modifies this
      ensures State() == Spec.Wheel(old(State()), deltaY, now)
      ensures Valid()
    {
      if !Locked() {
        return;
      }
      if kb.lastWheel.Some? && now - kb.lastWheel.value < WheelInterval {
        return;
      }
      if deltaY < 0.0 {
        ui := ui + [Spec.HotbarNext];
      } else if deltaY > 0.0 {
        ui := ui + [Spec.HotbarPrev];
      }
      kb := kb.(lastWheel := Some(now));
    }

    // -------------------------------------------------------------------
    // Touch emulation

    /** `touchstart`. */
    method TouchStart(s: Spec.TouchSample)
      requires Valid()
      modifies this
      ensures State() == Spec.TouchStart(old(State()), s)
      ensures Valid()
    {
      Inv.TouchStartValid(State(), s);
      ts := ts.(last := Some(s), begin := Some(s));
      ts := ts.(moveLen := 0.0);
      ts := ts.(destroying := false);
      RestartTouchTimer();
    }

    /** Clear the long-press timeout and start a new one. */
    method RestartTouchTimer()
      modifies this
      ensures State() == Spec.RestartTouchTimer(old(State()))
    {
      ClearTimeout(ts.timer);
      var id := SetTimeout();
      ts := ts.(timer := Some(id));
    }

    /** The long-press timeout firing; the synthesized press goes to `mousedown`. */
    method FireLongPress(ray: Option<Hit>, box: Box)
      requires Valid()
      modifies this
      ensures State() == Spec.LongPressFire(old(State()), ray, box)
      ensures Valid()
    {
      if !(ts.timer.Some? && ts.timer.value in timers.liveTimeouts) {
        return;
      }
      ghost var s0 := State();
      ClearTimeout(ts.timer);
      if ts.moveLen < DragDistance {
        ts := ts.(destroying := true, timer := None);
        ghost var s1 := State();
        MouseDown(0, ray, box);
        assert LongPressEvents(s0.ts.moveLen) == [ButtonDown(0)];
        assert Spec.ApplyMouseAll(s1, [ButtonDown(0)], ray, box) == Spec.MouseDown(s1, 0, ray, box);
      } else {
        ts := ts.(timer := None);
      }
    }

    /** `touchmove`; `dist` is the length of the step from the last sample,
        `Math.sqrt(movementX ** 2 + movementY ** 2)`. */
    method TouchMove(s: Spec.TouchSample, dist: real)
      requires Valid()
      requires ts.last.Some? ==>
        var dx, dy := s.screenX - ts.last.value.screenX, s.screenY - ts.last.value.screenY;
        dist >= 0.0 && dist * dist == dx * dx + dy * dy
      modifies this
      ensures State() == Spec.TouchMove(old(State()), s, dist)
      ensures Valid()
    {
      if ts.last.None? {
        ts := ts.(last := Some(s));
        return;
      }
      var movementX := s.screenX - ts.last.value.screenX;
      var movementY := s.screenY - ts.last.value.screenY;
      ghost var s0 := State();
      ts := ts.(moveLen := ts.moveLen + dist);
      Spec.MouseMoveIgnoresTouch(s0, ts, movementX * 2.0, movementY);
      MouseMove(movementX * 2.0, movementY);
      ts := ts.(last := Some(s));
    }

    /** `touchend` and `touchcancel`; the synthesized clicks go to the mouse
        handlers. Before any `touchstart` the source throws on the missing
        start sample. */
    method TouchEnd(s: Spec.TouchSample, ray: Option<Hit>, box: Box)
      requires Valid()
      modifies this
      ensures State() == Spec.TouchEnd(old(State()), s, ray, box)
      ensures Valid()
    {
      if ts.begin.None? {
        return;
      }
      Inv.TouchEndValid(State(), s, ray, box);
      TouchEndClicks(s, ray, box);
      ClearTimeout(ts.timer);
      ts := ts.(last := None);
    }

    /** The clicks `touchend` synthesizes, delivered to the mouse handlers. */
    method TouchEndClicks(s: Spec.TouchSample, ray: Option<Hit>, box: Box)
      requires Valid() && ts.begin.Some?
      modifies this
      ensures State() == Spec.TouchEndClicks(old(State()), s, ray, box)
      ensures Valid()
    {
      if s.timeStamp - ts.begin.value.timeStamp < TapDuration {
        MouseDown(2, ray, box);
        MouseUp(2);
        assert [ButtonDown(2), ButtonUp(2)][1..] == [ButtonUp(2)];
      } else if ts.destroying {
        MouseUp(0);
        assert [ButtonUp(0)][1..] == [];
      }
    }
  }
}
