/**
 * The `keys` table of the controller: which keys are held. A slot is named by
 * a numeric key code, a `key` string or a `code` string. On a touch device a
 * slot holds a press count, so that two on-screen buttons sending the same key
 * overlap correctly; elsewhere it holds a boolean.
 */
module KeyTable {
  import opened KeyEvents

  datatype KeyId = Code(n: int) | Name(s: string)

  datatype KeyValue = Count(n: int) | Flag(b: bool)

  type Keys = map<KeyId, KeyValue>

  /** JavaScript truthiness of a slot's value. */
  predicate Truthy(v: KeyValue) {
    match v
    case Count(n) => n != 0
    case Flag(b) => b
  }

  /** A slot is held when it exists and its value is truthy. */
  predicate Held(keys: Keys, id: KeyId) {
    id in keys && Truthy(keys[id])
  }

  /** `(keys[id] || d)` used as a number (`true` counts as 1). */
  function NumOr(keys: Keys, id: KeyId, d: int): int {
    if Held(keys, id) then
      match keys[id]
      case Count(n) => n
      case Flag(_) => 1
    else d
  }

  /** The three slots an event names; the key-code slot only when the code is truthy. */
  function Slots(e: KeyEvent): set<KeyId> {
    (if e.keyCode != 0 then {Code(e.keyCode)} else {}) + {Name(e.key), Name(e.code)}
  }

  /** The bookkeeping of `keydown` once input is active. */
  function Press(keys: Keys, e: KeyEvent, touch: bool): Keys {
    if touch then
      if e.repeat then keys
      else
        var k1 := if e.keyCode != 0 then keys[Code(e.keyCode) := Count(NumOr(keys, Code(e.keyCode), 0) + 1)] else keys;
        var v := Count(NumOr(k1, Name(e.key), 0) + 1);
        k1[Name(e.code) := v][Name(e.key) := v]
    else
      var k1 := if e.keyCode != 0 then keys[Code(e.keyCode) := Flag(true)] else keys;
      k1[Name(e.code) := Flag(true)][Name(e.key) := Flag(true)]
  }

  /** The bookkeeping of `keyup` once input is active. */
  function Release(keys: Keys, e: KeyEvent, touch: bool): Keys {
    if touch then
      var k1 := if e.keyCode != 0 then keys[Code(e.keyCode) := Count(NumOr(keys, Code(e.keyCode), 1) - 1)] else keys;
      var v := Count(NumOr(k1, Name(e.key), 1) - 1);
      k1[Name(e.code) := v][Name(e.key) := v]
    else
      var k1 := if e.keyCode != 0 then keys[Code(e.keyCode) := Flag(false)] else keys;
      k1[Name(e.code) := Flag(false)][Name(e.key) := Flag(false)]
  }

  /** The shape the table keeps: counts that are never negative on a touch
      device, booleans elsewhere. */
  predicate WellFormed(keys: Keys, touch: bool) {
    forall id :: id in keys ==>
      if touch then keys[id].Count? && keys[id].n >= 0 else keys[id].Flag?
  }

  /** A press changes only the event's own slots and leaves each of them held;
      a touch-device auto-repeat changes nothing. */
  lemma PressHolds(keys: Keys, e: KeyEvent, touch: bool)
    requires WellFormed(keys, touch)
    ensures WellFormed(Press(keys, e, touch), touch)
    ensures touch && e.repeat ==> Press(keys, e, touch) == keys
    ensures !(touch && e.repeat) ==> forall id :: id in Slots(e) ==> Held(Press(keys, e, touch), id)
    ensures forall id :: id !in Slots(e) ==>
      (id in keys <==> id in Press(keys, e, touch)) && (id in keys ==> Press(keys, e, touch)[id] == keys[id])
  {
  }

  /** A release changes only the event's own slots, never drives a count
      below zero, and on a boolean table leaves every slot of the event free. */
  lemma ReleaseFrees(keys: Keys, e: KeyEvent, touch: bool)
    requires WellFormed(keys, touch)
    ensures WellFormed(Release(keys, e, touch), touch)
    ensures !touch ==> forall id :: id in Slots(e) ==> !Held(Release(keys, e, touch), id)
    ensures forall id :: id !in Slots(e) ==>
      (id in keys <==> id in Release(keys, e, touch)) && (id in keys ==> Release(keys, e, touch)[id] == keys[id])
  {
  }

  /** The count a slot stands for; a missing slot counts 0. */
  function CountOf(keys: Keys, id: KeyId): int {
    NumOr(keys, id, 0)
  }

  /** On a touch device a press that is no auto-repeat raises the key-code
      slot by one, and sets the `key` slot and the `code` slot both to the
      `key` slot's count plus one. */
  lemma TouchPressCounts(keys: Keys, e: KeyEvent)
    requires WellFormed(keys, true) && !e.repeat
    ensures CountOf(Press(keys, e, true), Name(e.key)) == CountOf(keys, Name(e.key)) + 1
    ensures CountOf(Press(keys, e, true), Name(e.code)) == CountOf(keys, Name(e.key)) + 1
    ensures e.keyCode != 0 ==> CountOf(Press(keys, e, true), Code(e.keyCode)) == CountOf(keys, Code(e.keyCode)) + 1
  {
    assert Code(e.keyCode) != Name(e.key);
  }

  /** On a touch device a release lowers the key-code slot by one, and sets
      the `key` slot and the `code` slot both to the `key` slot's count less
      one; a slot at zero stays at zero. */
  lemma TouchReleaseCounts(keys: Keys, e: KeyEvent)
    requires WellFormed(keys, true)
    ensures var n := CountOf(keys, Name(e.key));
      && CountOf(Release(keys, e, true), Name(e.key)) == (if n > 0 then n - 1 else 0)
      && CountOf(Release(keys, e, true), Name(e.code)) == (if n > 0 then n - 1 else 0)
    ensures var m := CountOf(keys, Code(e.keyCode));
      e.keyCode != 0 ==> CountOf(Release(keys, e, true), Code(e.keyCode)) == (if m > 0 then m - 1 else 0)
  {
    assert Code(e.keyCode) != Name(e.key);
  }

  /** The `code` slot of an event agrees with its `key` slot. */
  predicate Coherent(keys: Keys, e: KeyEvent) {
    CountOf(keys, Name(e.code)) == CountOf(keys, Name(e.key))
  }

  /** Two tables that agree on every count. */
  ghost predicate SameCounts(a: Keys, b: Keys) {
    forall id :: CountOf(a, id) == CountOf(b, id)
  }

  /** On a touch device, a press followed by the matching release gives every
      slot its count back. */
  lemma PressThenRelease(keys: Keys, e: KeyEvent)
    requires WellFormed(keys, true) && !e.repeat && Coherent(keys, e)
    ensures SameCounts(Release(Press(keys, e, true), e, true), keys)
  {
    var after := Release(Press(keys, e, true), e, true);
    forall id ensures CountOf(after, id) == CountOf(keys, id) {
      if id in Slots(e) {
        PressHolds(keys, e, true);
      }
    }
  }

  /** A release only looks at counts, so tables with the same counts stay alike. */
  lemma ReleaseCongruent(a: Keys, b: Keys, e: KeyEvent)
    requires SameCounts(a, b) && WellFormed(a, true) && WellFormed(b, true)
    ensures SameCounts(Release(a, e, true), Release(b, e, true))
  {
    assert CountOf(a, Code(e.keyCode)) == CountOf(b, Code(e.keyCode));
    assert CountOf(a, Name(e.key)) == CountOf(b, Name(e.key));
    forall id ensures CountOf(Release(a, e, true), id) == CountOf(Release(b, e, true), id) {
      assert CountOf(a, id) == CountOf(b, id);
    }
  }

  /** The table after pressing the keys of `es` one after the other. */
  function PressAll(keys: Keys, es: seq<KeyEvent>, touch: bool): Keys
    decreases es
  {
    if es == [] then keys else PressAll(Press(keys, es[0], touch), es[1..], touch)
  }

  /** The table after releasing the keys of `es` one after the other. */
  function ReleaseAll(keys: Keys, es: seq<KeyEvent>, touch: bool): Keys
    decreases es
  {
    if es == [] then keys else ReleaseAll(Release(keys, es[0], touch), es[1..], touch)
  }

  lemma {:induction false} ReleaseAllAppend(keys: Keys, a: seq<KeyEvent>, b: seq<KeyEvent>, touch: bool)
    ensures ReleaseAll(keys, a + b, touch) == ReleaseAll(ReleaseAll(keys, a, touch), b, touch)
    decreases a
  {
    if a == [] {
      assert a + b == b;
    } else {
      assert (a + b)[0] == a[0] && (a + b)[1..] == a[1..] + b;
      ReleaseAllAppend(Release(keys, a[0], touch), a[1..], b, touch);
    }
  }

  lemma {:induction false} ReleaseAllWellFormed(keys: Keys, es: seq<KeyEvent>, touch: bool)
    requires WellFormed(keys, touch)
    ensures WellFormed(ReleaseAll(keys, es, touch), touch)
    decreases es
  {
    if es != [] {
      ReleaseFrees(keys, es[0], touch);
      ReleaseAllWellFormed(Release(keys, es[0], touch), es[1..], touch);
    }
  }

  /** Events whose slots are pairwise apart, none an auto-repeat, each
      coherent in `keys`: the keys of one on-screen button. */
  predicate Independent(keys: Keys, es: seq<KeyEvent>) {
    && (forall i :: 0 <= i < |es| ==> !es[i].repeat && Coherent(keys, es[i]))
    && (forall i, j :: 0 <= i < j < |es| ==> Slots(es[i]) !! Slots(es[j]))
  }

  /** On a touch device, pressing independent keys in order and releasing them
      in the opposite order gives every slot its count back. */
  lemma {:induction false} PressAllThenReleaseReversed(keys: Keys, es: seq<KeyEvent>)
    requires WellFormed(keys, true) && Independent(keys, es)
    ensures SameCounts(ReleaseAll(PressAll(keys, es, true), Reverse(es), true), keys)
    decreases es
  {
    if es != [] {
      var h, t := es[0], es[1..];
      var k1 := Press(keys, h, true);
      PressHolds(keys, h, true);
      forall i | 0 <= i < |t| ensures Coherent(k1, t[i]) {
        assert t[i] == es[i + 1];
        assert Slots(h) !! Slots(t[i]);
      }
      assert Independent(k1, t) by {
        forall i, j | 0 <= i < j < |t| ensures Slots(t[i]) !! Slots(t[j]) {
          assert t[i] == es[i + 1] && t[j] == es[j + 1];
        }
      }
      PressAllThenReleaseReversed(k1, t);
      var mid := ReleaseAll(PressAll(k1, t, true), Reverse(t), true);
      assert Reverse(es) == Reverse(t) + [h];
      ReleaseAllAppend(PressAll(k1, t, true), Reverse(t), [h], true);
      assert ReleaseAll(PressAll(keys, es, true), Reverse(es), true) == Release(mid, h, true);
      PressAllWellFormed(k1, t, true);
      ReleaseAllWellFormed(PressAll(k1, t, true), Reverse(t), true);
      ReleaseCongruent(mid, k1, h);
      PressThenRelease(keys, h);
    }
  }

  lemma {:induction false} PressAllWellFormed(keys: Keys, es: seq<KeyEvent>, touch: bool)
    requires WellFormed(keys, touch)
    ensures WellFormed(PressAll(keys, es, touch), touch)
    decreases es
  {
    if es != [] {
      PressHolds(keys, es[0], touch);
      PressAllWellFormed(Press(keys, es[0], touch), es[1..], touch);
    }
  }

  /** Pressing and releasing any button of the move panel on a touch device
      leaves the key counts as they were, provided each of its keys' `code`
      slot agreed with its `key` slot. */
  lemma MoveButtonRoundTrip(keys: Keys, b: MoveButton)
    requires WellFormed(keys, true)
    requires forall e :: e in PressEvents(b) ==> Coherent(keys, e)
    ensures SameCounts(ReleaseAll(PressAll(keys, PressEvents(b), true), ReleaseEvents(b), true), keys)
  {
    var es := PressEvents(b);
    ButtonCodes(b);
    ReleaseMirrorsPress(b);
    if b == UpLeft || b == UpRight {
      DiagonalSlotsApart(if b == UpLeft then 'a' else 'd');
      assert es == [Synthetic("w"), Synthetic([if b == UpLeft then 'a' else 'd'])];
    } else {
      assert |es| == 1;
    }
    assert Independent(keys, es);
    PressAllThenReleaseReversed(keys, es);
  }

  /** The two keys of a diagonal button name disjoint slots. */
  lemma DiagonalSlotsApart(other: char)
    requires other == 'a' || other == 'd'
    ensures Slots(Synthetic("w")) !! Slots(Synthetic([other]))
  {
    SyntheticLetter('w');
    SyntheticLetter(other);
    assert "w" == ['w'] && UpperChar('w') == 'W' && "KeyW" == "Key" + ['W'];
    assert Slots(Synthetic("w")) == {Code(87), Name("w"), Name("KeyW")};
    assert Slots(Synthetic([other])) == {Code(other as int - 32), Name([other]), Name("Key" + [UpperChar(other)])};
    assert "KeyW"[3] != ("Key" + [UpperChar(other)])[3];
  }
}
