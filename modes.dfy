/**
 The three echo modes of the add-on (SpeakTypedMode) and the cycle through them.
 A mode is persisted as its integer value 0, 1 or 2; turning a stored integer back
 into a mode fails for every other value.
 */
module Modes {

  datatype Option<+T> = None | Some(value: T)

  /** OFF = 0, ON = 1, EDITABLE_ONLY = 2. */
  datatype Mode = Off | On | EditableOnly

  /** The enum member's `.value`. */
  function Value(m: Mode): (v: int)
    ensures 0 <= v < 3
  {
    match m
    case Off => 0
    case On => 1
    case EditableOnly => 2
  }

  /** The mode a missing setting takes (the configuration default 2). */
  const DefaultMode: Mode := EditableOnly

  /** The enum call `SpeakTypedMode(v)`: defined exactly on 0, 1 and 2, and None
      (the enum's ValueError) on every other integer. */
  function FromValue(v: int): (r: Option<Mode>)
    ensures r.Some? <==> 0 <= v < 3
    ensures r.Some? ==> Value(r.value) == v
  {
    if v == 0 then Some(Off)
    else if v == 1 then Some(On)
    else if v == 2 then Some(EditableOnly)
    else None
  }

  /** The mode stored as `v`, for a value already known to be in range. */
  function ModeOf(v: int): (m: Mode)
    requires 0 <= v < 3
    ensures Value(m) == v
  {
    FromValue(v).value
  }

  /** Converting a mode to its value and back gives the mode again. */
  lemma ValueRoundTrip(m: Mode)
    ensures FromValue(Value(m)) == Some(m)
  {
  }

  /** Two modes with the same stored value are the same mode. */
  lemma ValueInjective(m: Mode, n: Mode)
    requires Value(m) == Value(n)
    ensures m == n
  {
    ValueRoundTrip(m);
    ValueRoundTrip(n);
  }

  /** The successor of the cycle OFF -> ON -> EDITABLE_ONLY -> OFF, written as a
      case table; its contract is the arithmetic `(v + 1) % 3` of the toggle scripts. */
  function Next(m: Mode): (r: Mode)
    ensures Value(r) == (Value(m) + 1) % 3
    ensures r != m
  {
    match m
    case Off => On
    case On => EditableOnly
    case EditableOnly => Off
  }

  /** The mode reached from `m` after `n` presses of a toggle gesture. */
  function Advance(m: Mode, n: nat): Mode
    decreases n
  {
    if n == 0 then m else Advance(Next(m), n - 1)
  }

  /** After `n` presses the stored value is the start value plus `n`, modulo 3. */
  lemma {:induction false} AdvanceValue(m: Mode, n: nat)
    ensures Value(Advance(m, n)) == (Value(m) + n) % 3
    decreases n
  {
    if n > 0 {
      AdvanceValue(Next(m), n - 1);
      assert Value(Advance(m, n)) == (Value(Next(m)) + n - 1) % 3;
      if m == EditableOnly {
        // Value(Next(m)) == 0, so the sum loses the 3 that 2 + 1 contributed.
        ModThreeShift(n - 1);
      }
    }
  }

  lemma ModThreeShift(x: int)
    ensures (x + 3) % 3 == x % 3
  {
  }

  /** Any multiple of three presses brings a mode back to where it started. */
  lemma {:induction false} AdvanceByThrees(m: Mode, k: nat)
    ensures Advance(m, 3 * k) == m
  {
    AdvanceValue(m, 3 * k);
    assert (Value(m) + 3 * k) % 3 == Value(m);
    ValueInjective(Advance(m, 3 * k), m);
  }

  /** Three presses return to the start, and fewer never do. */
  lemma CycleHasPeriodThree(m: Mode)
    ensures Next(Next(Next(m))) == m
    ensures Next(m) != m && Next(Next(m)) != m
  {
  }
}
