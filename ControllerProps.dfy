/**
 * What the handlers promise, stated over the controller state: the activity
 * gate, the pitch clamp, the place/destroy intents and their repeat timer,
 * the double-press toggles, the wheel rate limit, the touch gestures and the
 * pause-on-unlock arming.
 */
module ControllerProps {
  import opened Wrappers
  import opened KeyEvents
  import opened KeyTable
  import opened Placement
  import opened Gestures
  import opened ControllerSpec
  import opened ControllerInvariant

  // ---------------------------------------------------------------------
  // The activity gate

  /** While input is inactive, moves, releases, key releases and the wheel
      change nothing; a key press can only close the inventory; a mouse
      press only asks for the pointer lock, and only on a desktop with a
      canvas. */
  lemma InactiveInputIgnored(c: Ctl, dx: real, dy: real, b: int, ray: Option<Hit>, box: Box,
                             e: KeyEvent, deltaY: real, now: int)
    requires !Locked(c)
    ensures MouseMove(c, dx, dy) == c
    ensures MouseUp(c, b) == c
    ensures KeyUp(c, e, now) == c
    ensures Wheel(c, deltaY, now) == c
    ensures KeyDown(c, e, now) == c.(ui := c.ui + if e.key == "E" || e.key == "e" then [InventoryClosed] else [])
    ensures MouseDown(c, b, ray, box) == c.(ui := c.ui + if c.bind.hasCanvas then [PointerLockRequest] else [])
  {
    if !(e.key == "E" || e.key == "e") {
      assert c.ui + [] == c.ui;
    }
    if !c.bind.hasCanvas {
      assert c.ui + [] == c.ui;
    }
  }

  /** On a touch device input is always active. */
  lemma TouchAlwaysActive(c: Ctl)
    requires c.cfg.touch
    ensures Locked(c)
    ensures RequestPointerLock(c) == c
  {
  }

  // ---------------------------------------------------------------------
  // Look

  predicate PitchInRange(c: Ctl) {
    -HalfPi <= c.entity.pitch <= HalfPi
  }

  /** After an active mouse move the pitch lies in [-pi/2, pi/2] and is the
      point of that range nearest to the unclamped pitch; the yaw turns
      against the horizontal movement. */
  lemma LookClamped(c: Ctl, dx: real, dy: real)
    requires Locked(c)
    ensures PitchInRange(MouseMove(c, dx, dy))
    ensures var raw := c.entity.pitch - dy * c.cfg.pitchScale;
      forall q :: -HalfPi <= q <= HalfPi ==> Dist(MouseMove(c, dx, dy).entity.pitch, raw) <= Dist(q, raw)
    ensures MouseMove(c, dx, dy).entity.yaw == c.entity.yaw - dx * c.cfg.yawScale
    ensures MouseMove(c, dx, dy) == c.(entity := MouseMove(c, dx, dy).entity)
  {
  }

  /** No event moves the pitch out of range. */
  lemma StepKeepsPitch(c: Ctl, ev: Event)
    requires PitchInRange(c)
    ensures PitchInRange(Step(c, ev))
  {
    if ev.MouseMoved? || ev.MousePressed? || ev.MouseReleased? || ev.RepeatFired? {
      PointerStepKeepsPitch(c, ev);
    } else if ev.WheelTurned? || ev.PointerLockChanged? || ev.CanvasSet? {
      SettingStepKeepsPitch(c, ev);
    } else if ev.MoveButtonsSet? || ev.FlyButtonDoublePressed? || ev.BlockSelected? {
      ChoiceStepKeepsPitch(c, ev);
    } else if ev.KeyPressed? || ev.KeyReleased? {
      KeyStepKeepsPitch(c, ev);
    } else if ev.MoveButtonPressed? || ev.MoveButtonReleased? {
      ButtonStepKeepsPitch(c, ev);
    } else if ev.TouchStarted? || ev.TouchMoved? {
      TouchStepKeepsPitch(c, ev);
    } else {
      TouchEndStepKeepsPitch(c, ev);
    }
  }

  lemma PointerStepKeepsPitch(c: Ctl, ev: Event)
    requires PitchInRange(c)
    requires ev.MouseMoved? || ev.MousePressed? || ev.MouseReleased? || ev.RepeatFired?
    ensures PitchInRange(Step(c, ev))
  {
    match ev {
      case MouseMoved(dx, dy) =>
      case MousePressed(b, ray, box) =>
      case MouseReleased(b) =>
      case RepeatFired(ray, box) =>
    }
  }

  lemma SettingStepKeepsPitch(c: Ctl, ev: Event)
    requires PitchInRange(c)
    requires ev.WheelTurned? || ev.PointerLockChanged? || ev.CanvasSet?
    ensures PitchInRange(Step(c, ev))
  {
    match ev {
      case WheelTurned(d, now) =>
      case PointerLockChanged(l) =>
      case CanvasSet(p) =>
    }
  }

  lemma ChoiceStepKeepsPitch(c: Ctl, ev: Event)
    requires PitchInRange(c)
    requires ev.MoveButtonsSet? || ev.FlyButtonDoublePressed? || ev.BlockSelected?
    ensures PitchInRange(Step(c, ev))
  {
    match ev {
      case MoveButtonsSet(p) =>
      case FlyButtonDoublePressed =>
      case BlockSelected(item) =>
    }
  }

  lemma KeyStepKeepsPitch(c: Ctl, ev: Event)
    requires PitchInRange(c)
    requires ev.KeyPressed? || ev.KeyReleased?
    ensures PitchInRange(Step(c, ev))
  {
    match ev {
      case KeyPressed(e, now) => KeyDownKeepsPitch(c, e, now);
      case KeyReleased(e, now) =>
    }
  }

  lemma ButtonStepKeepsPitch(c: Ctl, ev: Event)
    requires PitchInRange(c)
    requires ev.MoveButtonPressed? || ev.MoveButtonReleased?
    ensures PitchInRange(Step(c, ev))
  {
    match ev {
      case MoveButtonPressed(b, now) => KeysDownKeepsPitch(c, PressEvents(b), now);
      case MoveButtonReleased(b, now) => KeysUpKeepsPitch(c, ReleaseEvents(b), now);
    }
  }

  lemma TouchStepKeepsPitch(c: Ctl, ev: Event)
    requires PitchInRange(c)
    requires ev.TouchStarted? || ev.TouchMoved?
    ensures PitchInRange(Step(c, ev))
  {
    match ev {
      case TouchStarted(s) =>
      case TouchMoved(s, dist) =>
    }
  }

  lemma TouchEndStepKeepsPitch(c: Ctl, ev: Event)
    requires PitchInRange(c)
    requires ev.TouchEnded? || ev.LongPressFired?
    ensures PitchInRange(Step(c, ev))
  {
    match ev {
      case TouchEnded(s, ray, box) =>
        if c.ts.begin.Some? {
          ApplyMouseAllKeepsPitch(c, TouchEndEvents(s.timeStamp - c.ts.begin.value.timeStamp, c.ts.destroying), ray, box);
        }
      case LongPressFired(ray, box) =>
        var c1 := c.(ts := c.ts.(destroying := c.ts.destroying || c.ts.moveLen < DragDistance, timer := None),
                     timers := ClearTimeout(c.timers, c.ts.timer));
        ApplyMouseAllKeepsPitch(c1, LongPressEvents(c.ts.moveLen), ray, box);
    }
  }

  lemma KeyDownKeepsPitch(c: Ctl, e: KeyEvent, now: int)
    ensures KeyDown(c, e, now).entity.pitch == c.entity.pitch
  {
  }

  lemma {:induction false} KeysDownKeepsPitch(c: Ctl, es: seq<KeyEvent>, now: int)
    ensures KeysDown(c, es, now).entity.pitch == c.entity.pitch
    decreases |es|
  {
    if es != [] {
      KeysDownKeepsPitch(c, es[..|es| - 1], now);
      KeyDownKeepsPitch(KeysDown(c, es[..|es| - 1], now), es[|es| - 1], now);
    }
  }

  lemma {:induction false} KeysUpKeepsPitch(c: Ctl, es: seq<KeyEvent>, now: int)
    ensures KeysUp(c, es, now).entity.pitch == c.entity.pitch
    decreases |es|
  {
    if es != [] {
      KeysUpKeepsPitch(c, es[..|es| - 1], now);
    }
  }

  lemma {:induction false} ApplyMouseAllKeepsPitch(c: Ctl, ms: seq<MouseEvt>, ray: Option<Hit>, box: Box)
    ensures ApplyMouseAll(c, ms, ray, box).entity.pitch == c.entity.pitch
    decreases ms
  {
    if ms != [] {
      ApplyMouseAllKeepsPitch(ApplyMouse(c, ms[0], ray, box), ms[1..], ray, box);
    }
  }

  /** From a state with the pitch in range, it stays in range for good. */
  lemma {:induction false} RunKeepsPitch(c: Ctl, evs: seq<Event>)
    requires PitchInRange(c)
    ensures PitchInRange(Run(c, evs))
    decreases evs
  {
    if evs != [] {
      StepKeepsPitch(c, evs[0]);
      RunKeepsPitch(Step(c, evs[0]), evs[1..]);
    }
  }

  // ---------------------------------------------------------------------
  // Place and destroy

  /** Buttons other than the primary (0) and secondary (2) are ignored by
      both mouse handlers. */
  lemma OtherButtonsIgnored(c: Ctl, b: int, ray: Option<Hit>, box: Box)
    requires Valid(c) && Locked(c) && b != 0 && b != 2
    ensures MouseDown(c, b, ray, box) == c
    ensures MouseUp(c, b) == c
  {
    assert c.btn.(destroyArmed := c.btn.destroyArmed, placeArmed := c.btn.placeArmed) == c.btn;
  }

  /** An active press of button 0 arms destroy and of button 2 arms place;
      one tick runs at once with the new intents, and a repeat interval with
      a handle never used before replaces the old one. */
  lemma MouseDownArms(c: Ctl, b: int, ray: Option<Hit>, box: Box)
    requires Valid(c) && Locked(c) && (b == 0 || b == 2)
    ensures var r := MouseDown(c, b, ray, box);
      && r.btn.destroyArmed == (b == 0 || c.btn.destroyArmed)
      && r.btn.placeArmed == (b == 2 || c.btn.placeArmed)
      && r.world == ApplyWrite(c.world, TickWrite(r.btn.placeArmed, r.btn.destroyArmed, ray, box, c.entity.onHandItem))
      && r.btn.repeatTimer.Some?
      && r.timers.liveIntervals == {r.btn.repeatTimer.value}
      && r.btn.repeatTimer.value !in c.timers.liveIntervals + c.timers.liveTimeouts
      && r.timers.liveTimeouts == c.timers.liveTimeouts
      && r.kb == c.kb && r.ts == c.ts && r.entity == c.entity
  {
  }

  /** An active release disarms its button's intent; the repeat interval is
      stopped exactly when no intent remains. */
  lemma MouseUpDisarms(c: Ctl, b: int)
    requires Valid(c) && Locked(c)
    ensures var r := MouseUp(c, b);
      && r.btn.destroyArmed == (b != 0 && c.btn.destroyArmed)
      && r.btn.placeArmed == (b != 2 && c.btn.placeArmed)
      && (r.timers.liveIntervals == {} <==> !r.btn.destroyArmed && !r.btn.placeArmed)
      && r.world == c.world && r.kb == c.kb && r.ts == c.ts
  {
    MouseUpValid(c, b);
  }

  /** The repeat interval performs the same tick as the press did, with the
      intents held at the time it fires. */
  lemma RepeatFireTicks(c: Ctl, ray: Option<Hit>, box: Box)
    requires Valid(c)
    ensures var r := RepeatFire(c, ray, box);
      && r == c.(world := r.world)
      && r.world == if c.btn.placeArmed || c.btn.destroyArmed
                    then ApplyWrite(c.world, TickWrite(c.btn.placeArmed, c.btn.destroyArmed, ray, box, c.entity.onHandItem))
                    else c.world
  {
  }

  /** A desktop player who holds button 0, loses the pointer lock and only
      then lets the button go keeps destroying: the release arrives while
      input is inactive and is ignored, so the repeat interval stays live
      and its next firing still writes air at the struck cell. */
  lemma LostLockKeepsRepeating(c: Ctl, ray: Option<Hit>, box: Box, h: Hit, box2: Box)
    requires Valid(c) && !c.cfg.touch && c.lock.lockedFlag && !c.btn.placeArmed
    requires h.axis != ""
    ensures var r := MouseUp(PointerLockChange(MouseDown(c, 0, ray, box), false), 0);
      && !Locked(r)
      && r.btn.destroyArmed
      && r.btn.repeatTimer.Some? && r.btn.repeatTimer.value in r.timers.liveIntervals
      && var f := RepeatFire(r, Some(h), box2);
         h.cell in f.world && f.world[h.cell] == Air
  {
    var c1 := MouseDown(c, 0, ray, box);
    MouseDownArms(c, 0, ray, box);
    var c2 := PointerLockChange(c1, false);
    assert c2.btn == c1.btn && c2.timers == c1.timers && !Locked(c2);
    var r := MouseUp(c2, 0);
    assert r == c2;
    assert TickWrite(false, true, Some(h), box2, r.entity.onHandItem) == Some(Write(h.cell, Air));
  }

  /** Pressing both buttons and letting both go again, in either order,
      leaves no repeat interval running. */
  lemma BothButtonsReleased(c: Ctl, ray: Option<Hit>, box: Box, first: int, second: int)
    requires Valid(c) && Locked(c)
    requires (first == 0 && second == 2) || (first == 2 && second == 0)
    ensures var r := MouseUp(MouseUp(MouseDown(MouseDown(c, 0, ray, box), 2, ray, box), first), second);
      r.timers.liveIntervals == {} && r.btn.repeatTimer.None? && !r.btn.placeArmed && !r.btn.destroyArmed
  {
    var c1 := MouseDown(c, 0, ray, box);
    MouseDownValid(c, 0, ray, box);
    var c2 := MouseDown(c1, 2, ray, box);
    MouseDownValid(c1, 2, ray, box);
    MouseUpDisarms(c2, first);
    var c3 := MouseUp(c2, first);
    MouseUpValid(c2, first);
    MouseUpDisarms(c3, second);
  }

  // ---------------------------------------------------------------------
  // Keys and the double-press toggles

  /** An active Space press toggles fly mode exactly when it is a double
      press, lights the fly button to the new mode when a move panel is
      bound, and records its time whether or not it toggled. */
  lemma SpaceToggle(c: Ctl, e: KeyEvent, now: int)
    requires Locked(c) && e.key == " " && e.code != "KeyW"
    ensures var r := KeyDown(c, e, now);
      var dbl := IsDoublePress(c.kb.spaceDown, c.kb.spaceUp, now);
      && r.entity.isFly == (c.entity.isFly != dbl)
      && r.entity.isRun == c.entity.isRun
      && r.kb.doubleClickSpace == dbl
      && r.kb.spaceDown == Some(now)
      && r.kb.spaceUp == c.kb.spaceUp && r.kb.moveDown == c.kb.moveDown
      && r.ui == c.ui + (if dbl && c.bind.hasMoveBtns then [FlyButtonLit(r.entity.isFly)] else [])
  {
    if !(IsDoublePress(c.kb.spaceDown, c.kb.spaceUp, now) && c.bind.hasMoveBtns) {
      assert c.ui + [] == c.ui;
    }
  }

  /** An active press with code KeyW toggles run mode exactly when it is a
      double press, and records its time whether or not it toggled. */
  lemma RunToggle(c: Ctl, e: KeyEvent, now: int)
    requires Locked(c) && e.code == "KeyW" && e.key != " "
    ensures var r := KeyDown(c, e, now);
      var dbl := IsDoublePress(c.kb.moveDown, c.kb.moveUp, now);
      && r.entity.isRun == (c.entity.isRun != dbl)
      && r.entity.isFly == c.entity.isFly
      && r.kb.doubleClickMove == dbl
      && r.kb.moveDown == Some(now)
      && r.kb.moveUp == c.kb.moveUp && r.kb.spaceDown == c.kb.spaceDown
  {
  }

  /** Before the first press of Space and of W no key toggles a mode. */
  lemma FirstPressNeverToggles(c: Ctl, e: KeyEvent, now: int)
    requires c.kb.spaceDown.None? && c.kb.moveDown.None?
    ensures KeyDown(c, e, now).entity.isFly == c.entity.isFly
    ensures KeyDown(c, e, now).entity.isRun == c.entity.isRun
  {
    var c1 := InventoryKey(c, e);
    assert c1.kb == c.kb && c1.entity == c.entity;
    if Locked(c1) {
      var c2 := PressKeys(c1, e);
      assert c2.kb.spaceDown.None? && c2.kb.moveDown.None? && c2.entity == c.entity;
      var c3 := if e.key == " " then SpaceKeyDown(c2, now) else c2;
      assert c3.kb.moveDown.None? && c3.entity == c.entity;
    }
  }

  /** On a desktop an active key release frees the event's slots; releasing
      Space stamps the Space release time, and releasing W stamps the W
      release time and leaves run mode. */
  lemma DesktopKeyUp(c: Ctl, e: KeyEvent, now: int)
    requires Valid(c) && Locked(c) && !c.cfg.touch
    ensures var r := KeyUp(c, e, now);
      && (forall id :: id in Slots(e) ==> !Held(r.kb.keys, id))
      && (e.code == "Space" || e.key == "Space" ==> r.kb.spaceUp == Some(now))
      && (e.code == "KeyW" || e.key == "KeyW" ==> r.kb.moveUp == Some(now) && !r.entity.isRun)
      && r.kb.spaceDown == c.kb.spaceDown && r.kb.moveDown == c.kb.moveDown
      && r.entity.isFly == c.entity.isFly
  {
    ReleaseFrees(c.kb.keys, e, c.cfg.touch);
  }

  /** A key release stamps the Space release time exactly when Space is no
      longer held afterwards, and likewise for W, which also leaves run mode. */
  lemma KeyUpStamps(c: Ctl, e: KeyEvent, now: int)
    requires Locked(c)
    ensures var r := KeyUp(c, e, now);
      && r.kb.keys == Release(c.kb.keys, e, c.cfg.touch)
      && (Held(r.kb.keys, Name("Space")) ==> r.kb.spaceUp == c.kb.spaceUp)
      && (!Held(r.kb.keys, Name("Space")) ==> r.kb.spaceUp == Some(now))
      && (Held(r.kb.keys, Name("KeyW")) ==> r.kb.moveUp == c.kb.moveUp && r.entity.isRun == c.entity.isRun)
      && (!Held(r.kb.keys, Name("KeyW")) ==> r.kb.moveUp == Some(now) && !r.entity.isRun)
      && r.kb.spaceDown == c.kb.spaceDown && r.cfg == c.cfg && r.bind == c.bind && r.lock == c.lock
      && r.entity.isFly == c.entity.isFly
  {
  }

  /** Press Space at t0, let go at t1, press again at t2: fly mode toggles
      exactly when the release came after the press and the second press
      falls strictly between 90 ms and 250 ms after the first. The first
      press never toggles. */
  lemma DoublePressScenario(c: Ctl, t0: int, t1: int, t2: int)
    requires Valid(c) && Locked(c) && c.kb.spaceDown.None?
    requires CountOf(c.kb.keys, Name(" ")) == 0
    ensures var sp := Synthetic(" ");
      var c1 := KeyDown(c, sp, t0);
      var r := KeyDown(KeyUp(c1, sp, t1), sp, t2);
      && c1.entity.isFly == c.entity.isFly
      && (r.entity.isFly != c.entity.isFly <==> t0 < t1 && t0 + DoublePressMin < t2 < t0 + DoublePressMax)
  {
    var sp := Synthetic(" ");
    SyntheticSpaceAndShift();
    SpaceToggle(c, sp, t0);
    SpaceDown(c, t0);
    var c1 := KeyDown(c, sp, t0);
    KeyUpStamps(c1, sp, t1);
    SpaceCounts(c.kb.keys, c.cfg.touch);
    var c2 := KeyUp(c1, sp, t1);
    assert c2.kb.spaceDown == Some(t0) && c2.kb.spaceUp == Some(t1);
    SpaceToggle(c2, sp, t2);
    DoublePressMeaning(Some(t0), Some(t1), t2);
  }

  /** One key event dispatched from a move button is handled as that event. */
  lemma SingleKey(c: Ctl, e: KeyEvent, now: int)
    ensures KeysDown(c, [e], now) == KeyDown(c, e, now)
    ensures KeysUp(c, [e], now) == KeyUp(c, e, now)
  {
    assert [e][..0] == [];
  }

  /** The key table under two Space presses and two releases. */
  lemma SpaceCounts(keys: Keys, touch: bool)
    requires WellFormed(keys, touch) && CountOf(keys, Name(" ")) == 0
    ensures var sp := Synthetic(" ");
      var k3 := Release(Press(Press(keys, sp, touch), sp, touch), sp, touch);
      && (touch ==> Held(k3, Name("Space")))
      && (!touch ==> !Held(k3, Name("Space")))
      && !Held(Release(k3, sp, touch), Name("Space"))
      && !Held(Release(Press(keys, sp, touch), sp, touch), Name("Space"))
  {
    var sp := Synthetic(" ");
    SyntheticSpaceAndShift();
    var k1 := Press(keys, sp, touch);
    var k2 := Press(k1, sp, touch);
    if touch {
      assert k1[Name(" ")] == Count(1);
      assert k2[Name(" ")] == Count(2);
    }
  }

  /** The Jump and FlyUp buttons send Space and nothing else. */
  lemma SpaceButton(c: Ctl, b: MoveButton, now: int)
    requires (b == Jump || b == FlyUp) && c.bind.hasCanvas
    ensures MoveButtonPress(c, b, now) == KeyDown(c, Synthetic(" "), now)
    ensures MoveButtonUp(c, b, now) == KeyUp(c, Synthetic(" "), now)
  {
    assert PressEvents(b) == [Synthetic(" ")] && ReleaseEvents(b) == [Synthetic(" ")];
    SingleKey(c, Synthetic(" "), now);
  }

  /** An active Space press counts Space in the key table and keeps the
      device, the bindings, the activity gate and the Space release time. */
  lemma SpaceDown(c: Ctl, now: int)
    requires Locked(c)
    ensures var r := KeyDown(c, Synthetic(" "), now);
      && r.kb.keys == Press(c.kb.keys, Synthetic(" "), c.cfg.touch)
      && r.cfg == c.cfg && r.bind == c.bind && Locked(r) && r.kb.spaceUp == c.kb.spaceUp
  {
    SyntheticSpaceAndShift();
    KeyDownTable(c, Synthetic(" "), now);
    SpaceToggle(c, Synthetic(" "), now);
  }

  /** The Jump and FlyUp buttons both send Space. Holding both and letting
      go of one: on a touch device Space is still held (the counts overlap)
      and the release time is not stamped until the other one is let go; on
      a desktop the first release already frees Space. */
  lemma OverlappingSpaceButtons(c: Ctl, t0: int, t1: int, t2: int, t3: int)
    requires Valid(c) && Locked(c) && c.bind.hasCanvas
    requires CountOf(c.kb.keys, Name(" ")) == 0
    ensures var c2 := MoveButtonPress(MoveButtonPress(c, Jump, t0), FlyUp, t1);
      var c3 := MoveButtonUp(c2, Jump, t2);
      var c4 := MoveButtonUp(c3, FlyUp, t3);
      && (c.cfg.touch ==> Held(c3.kb.keys, Name("Space")) && c3.kb.spaceUp == c.kb.spaceUp)
      && (!c.cfg.touch ==> !Held(c3.kb.keys, Name("Space")) && c3.kb.spaceUp == Some(t2))
      && !Held(c4.kb.keys, Name("Space")) && c4.kb.spaceUp == Some(t3)
  {
    var sp := Synthetic(" ");
    SpaceButton(c, Jump, t0);
    SpaceDown(c, t0);
    var c1 := KeyDown(c, sp, t0);
    SpaceButton(c1, FlyUp, t1);
    SpaceDown(c1, t1);
    var c2 := KeyDown(c1, sp, t1);
    SpaceButton(c2, Jump, t2);
    KeyUpStamps(c2, sp, t2);
    var c3 := KeyUp(c2, sp, t2);
    SpaceButton(c3, FlyUp, t3);
    KeyUpStamps(c3, sp, t3);
    SpaceCounts(c.kb.keys, c.cfg.touch);
  }

  lemma {:induction false} PressAllSnoc(keys: Keys, es: seq<KeyEvent>, e: KeyEvent, touch: bool)
    ensures PressAll(keys, es + [e], touch) == Press(PressAll(keys, es, touch), e, touch)
    decreases es
  {
    if es == [] {
      assert es + [e] == [e];
    } else {
      assert (es + [e])[0] == es[0] && (es + [e])[1..] == es[1..] + [e];
      PressAllSnoc(Press(keys, es[0], touch), es[1..], e, touch);
    }
  }

  lemma {:induction false} ReleaseAllSnoc(keys: Keys, es: seq<KeyEvent>, e: KeyEvent, touch: bool)
    ensures ReleaseAll(keys, es + [e], touch) == Release(ReleaseAll(keys, es, touch), e, touch)
  {
    ReleaseAllAppend(keys, es, [e], touch);
    assert [e][1..] == [];
  }

  /** An active key press acts on the key table as `Press` and leaves the
      activity gate, the timers, the intents and the world alone. */
  lemma KeyDownTable(c: Ctl, e: KeyEvent, now: int)
    requires Locked(c)
    ensures var r := KeyDown(c, e, now);
      && r.kb.keys == Press(c.kb.keys, e, c.cfg.touch)
      && r.cfg == c.cfg && r.bind == c.bind && Locked(r)
      && r.btn == c.btn && r.timers == c.timers && r.ts == c.ts && r.world == c.world
  {
    var c1 := InventoryKey(c, e);
    assert c1.kb == c.kb && c1.cfg == c.cfg && c1.lock.lockedFlag == c.lock.lockedFlag;
    var c2 := c1.(kb := c1.kb.(keys := Press(c1.kb.keys, e, c1.cfg.touch)));
    var c3 := if e.key == " " then SpaceKeyDown(c2, now) else c2;
    assert c3.kb.keys == c2.kb.keys && c3.cfg == c.cfg && c3.lock == c1.lock;
    assert c3.btn == c.btn && c3.timers == c.timers && c3.ts == c.ts && c3.world == c.world;
    var r := if e.code == "KeyW" then MoveKeyDown(c3, now) else c3;
    assert r.kb.keys == c2.kb.keys && r.cfg == c.cfg && r.lock == c1.lock && r.bind == c.bind;
    assert r.btn == c.btn && r.timers == c.timers && r.ts == c.ts && r.world == c.world;
    assert r == KeyDown(c, e, now);
  }

  /** Active key presses in order act on the key table as `PressAll` and
      leave the activity gate, the timers, the intents and the world alone. */
  lemma {:induction false} KeysDownTable(c: Ctl, es: seq<KeyEvent>, now: int)
    requires Locked(c)
    ensures var r := KeysDown(c, es, now);
      && r.kb.keys == PressAll(c.kb.keys, es, c.cfg.touch)
      && r.cfg == c.cfg && r.bind == c.bind && Locked(r)
      && r.btn == c.btn && r.timers == c.timers && r.ts == c.ts && r.world == c.world
    decreases |es|
  {
    if es != [] {
      var init, last := es[..|es| - 1], es[|es| - 1];
      KeysDownTable(c, init, now);
      KeyDownTable(KeysDown(c, init, now), last, now);
      assert es == init + [last];
      PressAllSnoc(c.kb.keys, init, last, c.cfg.touch);
    }
  }

  /** Active key releases in order act on the key table as `ReleaseAll`. */
  lemma {:induction false} KeysUpTable(c: Ctl, es: seq<KeyEvent>, now: int)
    requires Locked(c)
    ensures var r := KeysUp(c, es, now);
      && r.kb.keys == ReleaseAll(c.kb.keys, es, c.cfg.touch)
      && r.cfg == c.cfg && r.bind == c.bind && Locked(r)
      && r.btn == c.btn && r.timers == c.timers && r.ts == c.ts && r.world == c.world
    decreases |es|
  {
    if es != [] {
      var init, last := es[..|es| - 1], es[|es| - 1];
      KeysUpTable(c, init, now);
      assert es == init + [last];
      ReleaseAllSnoc(c.kb.keys, init, last, c.cfg.touch);
    }
  }

  /** On a touch device, pressing a move button and letting it go again
      gives every key slot its count back (given each of its keys' `code`
      slot agreed with its `key` slot), whatever other keys are held. */
  lemma MoveButtonCountsRestored(c: Ctl, b: MoveButton, t1: int, t2: int)
    requires Valid(c) && c.cfg.touch && c.bind.hasCanvas
    requires forall e :: e in PressEvents(b) ==> Coherent(c.kb.keys, e)
    ensures SameCounts(MoveButtonUp(MoveButtonPress(c, b, t1), b, t2).kb.keys, c.kb.keys)
  {
    KeysDownTable(c, PressEvents(b), t1);
    KeysUpTable(MoveButtonPress(c, b, t1), ReleaseEvents(b), t2);
    MoveButtonRoundTrip(c.kb.keys, b);
  }

  /** Without a canvas the move panel dispatches nothing. */
  lemma MoveButtonsNeedCanvas(c: Ctl, b: MoveButton, now: int)
    requires !c.bind.hasCanvas
    ensures MoveButtonPress(c, b, now) == c && MoveButtonUp(c, b, now) == c
  {
  }

  /** The fly button's double press leaves fly mode and unlights the button. */
  lemma FlyButtonLeavesFly(c: Ctl)
    ensures !FlyButtonDoublePress(c).entity.isFly
    ensures FlyButtonDoublePress(c).entity.isRun == c.entity.isRun
    ensures c.bind.hasMoveBtns ==> FlyButtonDoublePress(c).ui == c.ui + [FlyButtonLit(false)]
  {
  }

  // ---------------------------------------------------------------------
  // Wheel

  /** An active wheel event acts unless it comes less than 100 ms after the
      last one that acted: scrolling up selects the next hotbar slot,
      scrolling down the previous one, and the clock is reset either way. */
  lemma WheelRule(c: Ctl, deltaY: real, now: int)
    requires Locked(c)
    ensures var r := Wheel(c, deltaY, now);
      && (WheelRateLimited(c.kb.lastWheel, now) ==> r == c)
      && (!WheelRateLimited(c.kb.lastWheel, now) ==>
            && r.kb.lastWheel == Some(now)
            && (deltaY < 0.0 ==> r.ui == c.ui + [HotbarNext])
            && (deltaY > 0.0 ==> r.ui == c.ui + [HotbarPrev])
            && (deltaY == 0.0 ==> r.ui == c.ui))
  {
    if deltaY == 0.0 {
      assert c.ui + [] == c.ui;
    }
  }

  /** Two scroll-up steps `gap` ms apart select twice only when the gap is at
      least 100 ms. */
  lemma WheelScenario(c: Ctl, now: int, gap: int)
    requires Locked(c) && c.kb.lastWheel.None? && gap >= 0
    ensures var r := Wheel(Wheel(c, -1.0, now), -1.0, now + gap);
      r.ui == c.ui + (if gap < WheelInterval then [HotbarNext] else [HotbarNext, HotbarNext])
  {
    var c1 := Wheel(c, -1.0, now);
    WheelRule(c, -1.0, now);
    WheelRule(c1, -1.0, now + gap);
  }

  // ---------------------------------------------------------------------
  // Touch emulation

  /** A touch start opens a new session and replaces the long-press timer
      by a new one with a handle never used before. */
  lemma TouchStartRule(c: Ctl, s: TouchSample)
    requires Valid(c)
    ensures var r := TouchStart(c, s);
      && r.ts.begin == Some(s) && r.ts.last == Some(s) && r.ts.moveLen == 0.0 && !r.ts.destroying
      && r.ts.timer.Some? && r.timers.liveTimeouts == {r.ts.timer.value}
      && r.ts.timer.value !in c.timers.liveIntervals + c.timers.liveTimeouts
      && r.timers.liveIntervals == c.timers.liveIntervals && r.btn == c.btn
  {
  }

  /** A touch move doubles the horizontal step in the synthesized mouse
      move and adds the step's length to the session's travel. */
  lemma TouchMoveRule(c: Ctl, s: TouchSample, dist: real)
    requires c.cfg.touch && c.ts.last.Some?
    ensures var r := TouchMove(c, s, dist);
      var last := c.ts.last.value;
      && r.entity == MouseMove(c, 2.0 * (s.screenX - last.screenX), s.screenY - last.screenY).entity
      && r.ts.moveLen == c.ts.moveLen + dist
      && r.ts.last == Some(s)
      && r.btn == c.btn && r.timers == c.timers && r.world == c.world
  {
  }

  /** A tap (shorter than 150 ms) is a secondary click: it places once
      with the intents held at that moment plus place, and leaves place
      disarmed; when destroy was not held no repeat interval survives. */
  lemma TapPlacesOnce(c: Ctl, s: TouchSample, ray: Option<Hit>, box: Box)
    requires Valid(c) && c.cfg.touch && c.ts.begin.Some?
    requires s.timeStamp - c.ts.begin.value.timeStamp < TapDuration
    ensures var r := TouchEnd(c, s, ray, box);
      && r.world == ApplyWrite(c.world, TickWrite(true, c.btn.destroyArmed, ray, box, c.entity.onHandItem))
      && !r.btn.placeArmed && r.btn.destroyArmed == c.btn.destroyArmed
      && (!c.btn.destroyArmed ==> r.timers.liveIntervals == {})
      && r.ts.last.None? && r.timers.liveTimeouts == {}
  {
    var d := MouseDown(c, 2, ray, box);
    MouseDownArms(c, 2, ray, box);
    MouseDownValid(c, 2, ray, box);
    MouseUpDisarms(d, 2);
    assert [ButtonDown(2), ButtonUp(2)][1..] == [ButtonUp(2)];
    assert ApplyMouseAll(c, [ButtonDown(2), ButtonUp(2)], ray, box) == MouseUp(d, 2);
  }

  /** A touch end retires the long-press timeout and forgets the last
      sample but keeps the rest of the session, including the timer's
      handle. After a long press it releases the primary button; a touch
      that was neither a tap nor a long press clicks nothing. */
  lemma TouchEndRule(c: Ctl, s: TouchSample, ray: Option<Hit>, box: Box)
    requires Valid(c) && c.cfg.touch && c.ts.begin.Some?
    requires !(s.timeStamp - c.ts.begin.value.timeStamp < TapDuration)
    ensures var r := TouchEnd(c, s, ray, box);
      && r.ts == c.ts.(last := None)
      && r.timers.liveTimeouts == {}
      && r.world == c.world
      && (c.ts.destroying ==> !r.btn.destroyArmed && r.btn.placeArmed == c.btn.placeArmed)
      && (!c.ts.destroying ==> r.btn == c.btn)
  {
    if c.ts.destroying {
      assert [ButtonUp(0)][1..] == [];
      MouseUpDisarms(c, 0);
    }
  }

  /** A held touch that has travelled less than 10 px when the long-press
      timer fires arms destroy (one tick at once, then the repeat interval);
      one that travelled further only retires the timer. A timer that is no
      longer live does nothing. */
  lemma LongPressRule(c: Ctl, ray: Option<Hit>, box: Box)
    requires Valid(c) && c.cfg.touch
    ensures var r := LongPressFire(c, ray, box);
      && (!(c.ts.timer.Some? && c.ts.timer.value in c.timers.liveTimeouts) ==> r == c)
      && (c.ts.timer.Some? && c.ts.timer.value in c.timers.liveTimeouts ==>
            && r.ts.timer.None? && r.timers.liveTimeouts == {}
            && (c.ts.moveLen < DragDistance ==>
                  r.ts.destroying && r.btn.destroyArmed && r.btn.repeatTimer.Some?
                  && r.world == ApplyWrite(c.world, TickWrite(c.btn.placeArmed, true, ray, box, c.entity.onHandItem)))
            && (!(c.ts.moveLen < DragDistance) ==>
                  r.ts.destroying == c.ts.destroying && r.btn == c.btn && r.world == c.world))
  {
    if c.ts.timer.Some? && c.ts.timer.value in c.timers.liveTimeouts {
      var c1 := c.(ts := c.ts.(destroying := c.ts.destroying || c.ts.moveLen < DragDistance, timer := None),
                   timers := ClearTimeout(c.timers, c.ts.timer));
      if c.ts.moveLen < DragDistance {
        assert [ButtonDown(0)][1..] == [];
        MouseDownArms(c1, 0, ray, box);
      }
    }
  }

  /** Once a touch has travelled 10 px, moving on keeps it a drag: the
      long-press timer no longer arms destroy or writes to the world. */
  lemma DragNeverLongPresses(c: Ctl, s: TouchSample, dist: real, ray: Option<Hit>, box: Box)
    requires Valid(c) && c.cfg.touch && c.ts.moveLen >= DragDistance && dist >= 0.0
    ensures TouchMove(c, s, dist).ts.moveLen >= DragDistance
    ensures var r := LongPressFire(c, ray, box);
      r.btn == c.btn && r.world == c.world
  {
    LongPressRule(c, ray, box);
  }

  // ---------------------------------------------------------------------
  // Canvas and pointer lock

  /** Rebinding the canvas retires the long-press timer and nothing else:
      a held place or destroy keeps repeating. */
  lemma SetCanvasClearsOnlyLongPress(c: Ctl, present: bool)
    requires Valid(c) && c.bind.hasCanvas
    ensures var r := SetCanvas(c, present);
      && r.timers.liveTimeouts == {} && r.ts.timer.None?
      && r.timers.liveIntervals == c.timers.liveIntervals && r.btn == c.btn
      && r.bind.hasCanvas == present
  {
  }

  /** A lock change that matches the current activity does nothing. A real
      change records the new lock, arms the pause page for the next unlock
      and opens the pause page exactly on an unlock while it was armed;
      nothing else changes. */
  lemma PointerLockChangeRule(c: Ctl, l: bool)
    ensures Locked(c) == l ==> PointerLockChange(c, l) == c
    ensures var r := PointerLockChange(c, l);
      Locked(c) != l ==>
        && r.lock.lockedFlag == l && r.lock.showStopPage
        && (!c.cfg.touch ==> Locked(r) == l)
        && r.ui == c.ui + (if !l && c.lock.showStopPage then [PausePageOpened] else [])
        && r.cfg == c.cfg && r.bind == c.bind && r.btn == c.btn && r.timers == c.timers
        && r.kb == c.kb && r.ts == c.ts && r.entity == c.entity && r.world == c.world
  {
    if Locked(c) != l && !(!l && c.lock.showStopPage) {
      assert c.ui + [] == c.ui;
    }
  }

  /** The pause page opens on an unlock only after a lock has been taken,
      and an inventory key press while locked disarms it for the next unlock. */
  lemma PauseOnNextUnlockOnly(entity: EntityState, world: map<Cell, string>, yawScale: real, pitchScale: real,
                              hasMoveBtns: bool, now: int)
    ensures var c := Initial(false, yawScale, pitchScale, true, hasMoveBtns, entity, world);
      && PointerLockChange(c, false) == c
      && PointerLockChange(PointerLockChange(c, true), false).ui == [PausePageOpened]
      && PointerLockChange(KeyDown(PointerLockChange(c, true), Synthetic("e"), now), false).ui == [InventoryShown]
  {
    var c := Initial(false, yawScale, pitchScale, true, hasMoveBtns, entity, world);
    var e := Synthetic("e");
    assert e.key == "e";
    var c1 := PointerLockChange(c, true);
    assert c1.ui == [] && Locked(c1) && c1.lock.showStopPage;
    var c2 := KeyDown(c1, e, now);
    assert c2.ui == [InventoryShown] && !c2.lock.showStopPage && Locked(c2);
  }
}
