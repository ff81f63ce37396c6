/**
 * Every handler keeps the controller invariant `Valid`: the repeat timer runs
 * exactly while a place or destroy intent is held, at most one repeat
 * interval and one long-press timeout are live, and the key table keeps the
 * shape of the device.
 */
module ControllerInvariant {
  import opened Wrappers
  import opened KeyEvents
  import opened KeyTable
  import opened Placement
  import opened Gestures
  import opened ControllerSpec

  /** A state that agrees with a valid one on the timers and the key table is valid. */
  lemma SameShape(c: Ctl, d: Ctl)
    requires Valid(c)
    requires d.btn == c.btn && d.ts.timer == c.ts.timer && d.timers == c.timers
    requires d.kb.keys == c.kb.keys && d.cfg.touch == c.cfg.touch
    ensures Valid(d)
  {
  }

  lemma MouseDownValid(c: Ctl, b: int, ray: Option<Hit>, box: Box)
    requires Valid(c)
    ensures Valid(MouseDown(c, b, ray, box))
  {
  }

  lemma MouseUpValid(c: Ctl, b: int)
    requires Valid(c)
    ensures Valid(MouseUp(c, b))
  {
  }

  lemma KeyDownValid(c: Ctl, e: KeyEvent, now: int)
    requires Valid(c)
    ensures Valid(KeyDown(c, e, now))
  {
    var c1 := InventoryKey(c, e);
    SameShape(c, c1);
    if Locked(c1) {
      PressHolds(c1.kb.keys, e, c1.cfg.touch);
      var c2 := PressKeys(c1, e);
      assert Valid(c2);
      var c3 := if e.key == " " then SpaceKeyDown(c2, now) else c2;
      SameShape(c2, c3);
      var c4 := if e.code == "KeyW" then MoveKeyDown(c3, now) else c3;
      SameShape(c3, c4);
    }
  }

  lemma KeyUpValid(c: Ctl, e: KeyEvent, now: int)
    requires Valid(c)
    ensures Valid(KeyUp(c, e, now))
  {
    ReleaseFrees(c.kb.keys, e, c.cfg.touch);
  }

  lemma {:induction false} KeysDownValid(c: Ctl, es: seq<KeyEvent>, now: int)
    requires Valid(c)
    ensures Valid(KeysDown(c, es, now))
    decreases |es|
  {
    if es != [] {
      KeysDownValid(c, es[..|es| - 1], now);
      KeyDownValid(KeysDown(c, es[..|es| - 1], now), es[|es| - 1], now);
    }
  }

  lemma {:induction false} KeysUpValid(c: Ctl, es: seq<KeyEvent>, now: int)
    requires Valid(c)
    ensures Valid(KeysUp(c, es, now))
    decreases |es|
  {
    if es != [] {
      KeysUpValid(c, es[..|es| - 1], now);
      KeyUpValid(KeysUp(c, es[..|es| - 1], now), es[|es| - 1], now);
    }
  }

  lemma {:induction false} ApplyMouseAllValid(c: Ctl, ms: seq<MouseEvt>, ray: Option<Hit>, box: Box)
    requires Valid(c)
    ensures Valid(ApplyMouseAll(c, ms, ray, box))
    decreases ms
  {
    if ms != [] {
      match ms[0] {
        case ButtonDown(b) => MouseDownValid(c, b, ray, box);
        case ButtonUp(b) => MouseUpValid(c, b);
      }
      ApplyMouseAllValid(ApplyMouse(c, ms[0], ray, box), ms[1..], ray, box);
    }
  }

  lemma TouchStartValid(c: Ctl, s: TouchSample)
    requires Valid(c)
    ensures Valid(TouchStart(c, s))
  {
  }

  lemma TouchEndValid(c: Ctl, s: TouchSample, ray: Option<Hit>, box: Box)
    requires Valid(c)
    ensures Valid(TouchEnd(c, s, ray, box))
  {
    if c.ts.begin.Some? {
      var c1 := TouchEndClicks(c, s, ray, box);
      TouchEndClicksValid(c, s, ray, box);
      ClearTimeoutValid(c1);
    }
  }

  lemma TouchEndClicksValid(c: Ctl, s: TouchSample, ray: Option<Hit>, box: Box)
    requires Valid(c) && c.ts.begin.Some?
    ensures Valid(TouchEndClicks(c, s, ray, box))
  {
    ApplyMouseAllValid(c, TouchEndEvents(s.timeStamp - c.ts.begin.value.timeStamp, c.ts.destroying), ray, box);
  }

  /** Clearing the long-press timeout, keeping its handle, keeps the invariant. */
  lemma ClearTimeoutValid(c: Ctl)
    requires Valid(c)
    ensures Valid(c.(timers := ClearTimeout(c.timers, c.ts.timer), ts := c.ts.(last := None)))
  {
  }

  lemma LongPressFireValid(c: Ctl, ray: Option<Hit>, box: Box)
    requires Valid(c)
    ensures Valid(LongPressFire(c, ray, box))
  {
    if c.ts.timer.Some? && c.ts.timer.value in c.timers.liveTimeouts {
      var c1 := c.(ts := c.ts.(destroying := c.ts.destroying || c.ts.moveLen < DragDistance, timer := None),
                   timers := ClearTimeout(c.timers, c.ts.timer));
      ApplyMouseAllValid(c1, LongPressEvents(c.ts.moveLen), ray, box);
    }
  }

  lemma MouseMoveValid(c: Ctl, dx: real, dy: real)
    requires Valid(c)
    ensures Valid(MouseMove(c, dx, dy))
  {
    SameShape(c, MouseMove(c, dx, dy));
  }

  lemma WheelValid(c: Ctl, d: real, now: int)
    requires Valid(c)
    ensures Valid(Wheel(c, d, now))
  {
    SameShape(c, Wheel(c, d, now));
  }

  lemma PointerLockChangeValid(c: Ctl, l: bool)
    requires Valid(c)
    ensures Valid(PointerLockChange(c, l))
  {
    SameShape(c, PointerLockChange(c, l));
  }

  lemma TouchMoveValid(c: Ctl, s: TouchSample, dist: real)
    requires Valid(c)
    ensures Valid(TouchMove(c, s, dist))
  {
    SameShape(c, TouchMove(c, s, dist));
  }

  lemma RepeatFireValid(c: Ctl, ray: Option<Hit>, box: Box)
    requires Valid(c)
    ensures Valid(RepeatFire(c, ray, box))
  {
    SameShape(c, RepeatFire(c, ray, box));
  }

  lemma SetCanvasValid(c: Ctl, p: bool)
    requires Valid(c)
    ensures Valid(SetCanvas(c, p))
  {
  }

  lemma SetMoveBtnsValid(c: Ctl, p: bool)
    requires Valid(c)
    ensures Valid(SetMoveBtns(c, p))
  {
    SameShape(c, SetMoveBtns(c, p));
  }

  lemma FlyButtonDoublePressValid(c: Ctl)
    requires Valid(c)
    ensures Valid(FlyButtonDoublePress(c))
  {
    SameShape(c, FlyButtonDoublePress(c));
  }

  lemma SelectBlockValid(c: Ctl, item: Option<string>)
    requires Valid(c)
    ensures Valid(SelectBlock(c, item))
  {
    SameShape(c, SelectBlock(c, item));
  }

  /** Each event keeps the invariant. */
  lemma StepValid(c: Ctl, ev: Event)
    requires Valid(c)
    ensures Valid(Step(c, ev))
  {
    if ev.MouseMoved? || ev.MousePressed? || ev.MouseReleased? {
      PointerStepValid(c, ev);
    } else if ev.RepeatFired? || ev.WheelTurned? || ev.PointerLockChanged? {
      TimedStepValid(c, ev);
    } else if ev.KeyPressed? || ev.KeyReleased? {
      KeyStepValid(c, ev);
    } else if ev.MoveButtonPressed? || ev.MoveButtonReleased? {
      ButtonStepValid(c, ev);
    } else if ev.CanvasSet? || ev.MoveButtonsSet? {
      SettingStepValid(c, ev);
    } else if ev.FlyButtonDoublePressed? || ev.BlockSelected? {
      ChoiceStepValid(c, ev);
    } else if ev.TouchStarted? || ev.TouchMoved? {
      TouchStepValid(c, ev);
    } else {
      TouchEndStepValid(c, ev);
    }
  }

  lemma PointerStepValid(c: Ctl, ev: Event)
    requires Valid(c)
    requires ev.MouseMoved? || ev.MousePressed? || ev.MouseReleased?
    ensures Valid(Step(c, ev))
  {
    match ev {
      case MouseMoved(dx, dy) => MouseMoveValid(c, dx, dy);
      case MousePressed(b, ray, box) => MouseDownValid(c, b, ray, box);
      case MouseReleased(b) => MouseUpValid(c, b);
    }
  }

  lemma TimedStepValid(c: Ctl, ev: Event)
    requires Valid(c)
    requires ev.RepeatFired? || ev.WheelTurned? || ev.PointerLockChanged?
    ensures Valid(Step(c, ev))
  {
    match ev {
      case RepeatFired(ray, box) => RepeatFireValid(c, ray, box);
      case WheelTurned(d, now) => WheelValid(c, d, now);
      case PointerLockChanged(l) => PointerLockChangeValid(c, l);
    }
  }

  lemma KeyStepValid(c: Ctl, ev: Event)
    requires Valid(c)
    requires ev.KeyPressed? || ev.KeyReleased?
    ensures Valid(Step(c, ev))
  {
    match ev {
      case KeyPressed(e, now) => KeyDownValid(c, e, now);
      case KeyReleased(e, now) => KeyUpValid(c, e, now);
    }
  }

  lemma ButtonStepValid(c: Ctl, ev: Event)
    requires Valid(c)
    requires ev.MoveButtonPressed? || ev.MoveButtonReleased?
    ensures Valid(Step(c, ev))
  {
    match ev {
      case MoveButtonPressed(b, now) => KeysDownValid(c, PressEvents(b), now);
      case MoveButtonReleased(b, now) => KeysUpValid(c, ReleaseEvents(b), now);
    }
  }

  lemma SettingStepValid(c: Ctl, ev: Event)
    requires Valid(c)
    requires ev.CanvasSet? || ev.MoveButtonsSet?
    ensures Valid(Step(c, ev))
  {
    match ev {
      case CanvasSet(p) => SetCanvasValid(c, p);
      case MoveButtonsSet(p) => SetMoveBtnsValid(c, p);
    }
  }

  lemma ChoiceStepValid(c: Ctl, ev: Event)
    requires Valid(c)
    requires ev.FlyButtonDoublePressed? || ev.BlockSelected?
    ensures Valid(Step(c, ev))
  {
    match ev {
      case FlyButtonDoublePressed => FlyButtonDoublePressValid(c);
      case BlockSelected(item) => SelectBlockValid(c, item);
    }
  }

  lemma TouchStepValid(c: Ctl, ev: Event)
    requires Valid(c)
    requires ev.TouchStarted? || ev.TouchMoved?
    ensures Valid(Step(c, ev))
  {
    match ev {
      case TouchStarted(s) => TouchStartValid(c, s);
      case TouchMoved(s, dist) => TouchMoveValid(c, s, dist);
    }
  }

  lemma TouchEndStepValid(c: Ctl, ev: Event)
    requires Valid(c)
    requires ev.TouchEnded? || ev.LongPressFired?
    ensures Valid(Step(c, ev))
  {
    match ev {
      case TouchEnded(s, ray, box) => TouchEndValid(c, s, ray, box);
      case LongPressFired(ray, box) => LongPressFireValid(c, ray, box);
    }
  }

  /** Any run of events from a valid state ends in a valid state; in
      particular from construction on, the repeat timer is live exactly while
      a button intent is held and never more than one repeat interval or
      long-press timeout runs. */
  lemma {:induction false} RunValid(c: Ctl, evs: seq<Event>)
    requires Valid(c)
    ensures Valid(Run(c, evs))
    ensures |Run(c, evs).timers.liveIntervals| <= 1 && |Run(c, evs).timers.liveTimeouts| <= 1
    ensures Run(c, evs).btn.repeatTimer.Some? <==> Run(c, evs).btn.placeArmed || Run(c, evs).btn.destroyArmed
    decreases evs
  {
    if evs != [] {
      StepValid(c, evs[0]);
      RunValid(Step(c, evs[0]), evs[1..]);
    } else {
      AtMostOneTimer(c);
    }
  }

  lemma AtMostOneTimer(c: Ctl)
    requires Valid(c)
    ensures |c.timers.liveIntervals| <= 1 && |c.timers.liveTimeouts| <= 1
  {
    if c.ts.timer.Some? {
      SubsetOfSingleton(c.timers.liveTimeouts, c.ts.timer.value);
    }
  }

  lemma SubsetOfSingleton(s: set<nat>, x: nat)
    requires s <= {x}
    ensures |s| <= 1
  {
    if s != {} {
      assert s == {x};
    }
  }
}
