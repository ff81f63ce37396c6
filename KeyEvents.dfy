/**
 * Synthetic keyboard events: the defaults `dispatchKeyEvent` derives from a key
 * name, and the keys each on-screen move button presses (`setMoveBtns`).
 */
module KeyEvents {

  /** A keyboard event as the handlers read it. `keyCode` is 0 when the event
      carries none (0 or NaN in the browser: the handlers only test it for
      truthiness before using it). */
  datatype KeyEvent = KeyEvent(key: string, code: string, keyCode: int, repeat: bool)

  /** `toUpperCase` on one character, for the ASCII letters. */
  function UpperChar(c: char): (u: char)
    ensures 'a' <= c <= 'z' ==> 'A' <= u <= 'Z' && u as int == c as int - 32
    ensures !('a' <= c <= 'z') ==> u == c
  {
    if 'a' <= c <= 'z' then (c as int - 32) as char else c
  }

  /** `toUpperCase` on a string, character by character. */
  function ToUpper(s: string): (u: string)
    ensures |u| == |s|
    ensures forall i :: 0 <= i < |s| ==> u[i] == UpperChar(s[i])
  {
    seq(|s|, i requires 0 <= i < |s| => UpperChar(s[i]))
  }

  /** The default `code` of `dispatchKeyEvent`: a lookup in the table
      {" ": "Space", "Shift": "ShiftLeft"}, else "Key" + the upper-cased key. */
  function DefaultCode(key: string): string {
    if key == " " then "Space"
    else if key == "Shift" then "ShiftLeft"
    else "Key" + ToUpper(key)
  }

  /** The default `keyCode` of `dispatchKeyEvent`: 16 for Shift, else the
      character code of the first upper-cased character (0 for the empty key,
      whose code in the browser is NaN). */
  function DefaultKeyCode(key: string): int {
    if key == "Shift" then 16
    else if key == "" then 0
    else ToUpper(key)[0] as int
  }

  /** The event `dispatchKeyEvent(type, key)` sends when only the key is given. */
  function Synthetic(key: string): (e: KeyEvent)
    ensures e.key == key && !e.repeat
  {
    KeyEvent(key, DefaultCode(key), DefaultKeyCode(key), false)
  }

  lemma SyntheticLetter(c: char)
    requires 'a' <= c <= 'z'
    ensures Synthetic([c]).code == "Key" + [UpperChar(c)]
    ensures Synthetic([c]).keyCode == c as int - 32
    ensures Synthetic([c]).keyCode != 0
  {
  }

  lemma SyntheticSpaceAndShift()
    ensures Synthetic(" ") == KeyEvent(" ", "Space", 32, false)
    ensures Synthetic("Shift") == KeyEvent("Shift", "ShiftLeft", 16, false)
  {
  }

  /** The buttons of the on-screen move panel (`fly` and `sneak` have no keys). */
  datatype MoveButton = Up | Left | Down | Right | Jump | UpLeft | UpRight | FlyUp | FlyDown

  /** The keys a move button stands for, in press order. */
  function ButtonKeys(b: MoveButton): (ks: seq<string>)
    ensures 1 <= |ks| <= 2
  {
    match b
    case Up => ["w"]
    case Left => ["a"]
    case Down => ["s"]
    case Right => ["d"]
    case Jump => [" "]
    case UpLeft => ["w", "a"]
    case UpRight => ["w", "d"]
    case FlyUp => [" "]
    case FlyDown => ["Shift"]
  }

  function Reverse<T>(s: seq<T>): (r: seq<T>)
    ensures |r| == |s|
    ensures forall i :: 0 <= i < |s| ==> r[i] == s[|s| - 1 - i]
  {
    if s == [] then [] else Reverse(s[1..]) + [s[0]]
  }

  function SyntheticAll(keys: seq<string>): (es: seq<KeyEvent>)
    ensures |es| == |keys|
    ensures forall i :: 0 <= i < |keys| ==> es[i] == Synthetic(keys[i])
  {
    seq(|keys|, i requires 0 <= i < |keys| => Synthetic(keys[i]))
  }

  /** The key-down events pressing button `b` dispatches, in order. */
  function PressEvents(b: MoveButton): seq<KeyEvent> {
    SyntheticAll(ButtonKeys(b))
  }

  /** The key-up events releasing button `b` dispatches: last key first. */
  function ReleaseEvents(b: MoveButton): seq<KeyEvent> {
    SyntheticAll(Reverse(ButtonKeys(b)))
  }

  /** Releasing a button sends the very events pressing it sent, in the
      opposite order, so nested keys are let go innermost first. */
  lemma ReleaseMirrorsPress(b: MoveButton)
    ensures ReleaseEvents(b) == Reverse(PressEvents(b))
  {
    var ks := ButtonKeys(b);
    assert |ReleaseEvents(b)| == |Reverse(PressEvents(b))|;
    forall i | 0 <= i < |ks|
      ensures ReleaseEvents(b)[i] == Reverse(PressEvents(b))[i]
    {
    }
  }

  /** Every key of the panel is sent with a non-zero key code, and only the
      forward buttons send the `KeyW` code the run toggle watches. */
  lemma ButtonCodes(b: MoveButton)
    ensures forall e :: e in PressEvents(b) ==> e.keyCode != 0 && !e.repeat
    ensures (exists e :: e in PressEvents(b) && e.code == "KeyW") <==> b in {Up, UpLeft, UpRight}
    ensures (exists e :: e in PressEvents(b) && e.key == " ") <==> b in {Jump, FlyUp}
  {
    var es := PressEvents(b);
    match b
    case Up => assert es[0].code == "KeyW";
    case UpLeft => assert es[0].code == "KeyW";
    case UpRight => assert es[0].code == "KeyW";
    case Jump => assert es[0].key == " ";
    case FlyUp => assert es[0].key == " ";
    case Left => assert es == [Synthetic("a")] && es[0].code == "KeyA";
    case Down => assert es == [Synthetic("s")] && es[0].code == "KeyS";
    case Right => assert es == [Synthetic("d")] && es[0].code == "KeyD";
    case FlyDown => assert es == [Synthetic("Shift")];
  }
}
