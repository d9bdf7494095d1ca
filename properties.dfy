/**
 Properties of the plugin over one or more operations: a run of events as the
 screen reader dispatches them, the invariant that stored modes stay decodable,
 the period-three cycle of a toggle gesture, the idempotence of the event hook,
 and the EDITABLE_ONLY asymmetry of the toggle scripts.
 */
module PluginProperties {
  import opened Modes
  import opened Focus
  import opened Plugin

  /** What the screen reader can hand the plugin: a typed character with the
      focused object, or one of the two toggle gestures. */
  datatype Event = KeyTyped(obj: FocusObject) | Gesture(feature: Feature)

  function Dispatch(h: Host, e: Event): Step
  {
    match e
    case KeyTyped(obj) => TypedCharacter(h, obj)
    case Gesture(f) => ToggleMode(h, f)
  }

  /** The state after the events in order; a raised exception ends only its own event. */
  function Run(h: Host, events: seq<Event>): Host
    decreases |events|
  {
    if events == [] then h else Run(Dispatch(h, events[0]).after, events[1..])
  }

  /** No event of the run raises. */
  predicate RunsClean(h: Host, events: seq<Event>)
    decreases |events|
  {
    events == [] || (Dispatch(h, events[0]).outcome.Done? && RunsClean(Dispatch(h, events[0]).after, events[1..]))
  }

  function CountGestures(events: seq<Event>): nat
  {
    if events == [] then 0 else (if events[0].Gesture? then 1 else 0) + CountGestures(events[1..])
  }

  function CountKeys(events: seq<Event>): nat
  {
    if events == [] then 0 else (if events[0].KeyTyped? then 1 else 0) + CountKeys(events[1..])
  }

  /** One event keeps both stored modes decodable, and never raises when they are. */
  lemma DispatchKeepsModesInRange(h: Host, e: Event)
    requires ModesInRange(h)
    ensures Dispatch(h, e).outcome.Done?
    ensures ModesInRange(Dispatch(h, e).after)
    ensures |Dispatch(h, e).after.messages| == |h.messages| + (if e.Gesture? then 1 else 0)
    ensures |Dispatch(h, e).after.forwarded| == |h.forwarded| + (if e.KeyTyped? then 1 else 0)
  {
    match e
    case KeyTyped(obj) =>
    case Gesture(f) =>
      var h' := ToggleMode(h, f).after;
      assert Stored(h', f) == (Stored(h, f) + 1) % 3;
      assert Stored(h', Other(f)) == Stored(h, Other(f));
      match f
      case Characters =>
      case Words =>
  }

  /** The plugin never writes a stored mode SpeakTypedMode would reject: from decodable
      modes, no run raises, the modes stay decodable, every gesture speaks exactly one
      message and every typed character calls the continuation exactly once. */
  lemma {:induction false} RunKeepsModesInRange(h: Host, events: seq<Event>)
    requires ModesInRange(h)
    ensures RunsClean(h, events)
    ensures ModesInRange(Run(h, events))
    ensures |Run(h, events).messages| == |h.messages| + CountGestures(events)
    ensures |Run(h, events).forwarded| == |h.forwarded| + CountKeys(events)
    decreases |events|
  {
    if events != [] {
      DispatchKeepsModesInRange(h, events[0]);
      RunKeepsModesInRange(Dispatch(h, events[0]).after, events[1..]);
    }
  }

  /** `n` presses of the gesture for feature `f`. */
  function Presses(f: Feature, n: nat): (events: seq<Event>)
    ensures |events| == n
  {
    if n == 0 then [] else [Gesture(f)] + Presses(f, n - 1)
  }

  /** After `n` presses the stored mode of `f` has advanced `n` steps through the
      cycle, and the other feature's mode and flag are as they were. */
  lemma {:induction false} PressesAdvanceMode(h: Host, f: Feature, n: nat)
    requires 0 <= Stored(h, f) < 3
    ensures 0 <= Stored(Run(h, Presses(f, n)), f) < 3
    ensures Stored(Run(h, Presses(f, n)), f) == Value(Advance(ModeOf(Stored(h, f)), n))
    ensures Stored(Run(h, Presses(f, n)), Other(f)) == Stored(h, Other(f))
    ensures Live(Run(h, Presses(f, n)), Other(f)) == Live(h, Other(f))
    ensures |Run(h, Presses(f, n)).messages| == |h.messages| + n
    decreases n
  {
    if n > 0 {
      var h1 := ToggleMode(h, f).after;
      assert Presses(f, n)[1..] == Presses(f, n - 1);
      assert Run(h, Presses(f, n)) == Run(h1, Presses(f, n - 1));
      PressesAdvanceMode(h1, f, n - 1);
      ValueInjective(ModeOf(Stored(h1, f)), Next(ModeOf(Stored(h, f))));
    }
  }

  /** Three presses of one toggle gesture restore its stored mode; so does any
      multiple of three. */
  lemma PressesByThreesRestoreMode(h: Host, f: Feature, k: nat)
    requires 0 <= Stored(h, f) < 3
    ensures Stored(Run(h, Presses(f, 3 * k)), f) == Stored(h, f)
  {
    PressesAdvanceMode(h, f, 3 * k);
    AdvanceByThrees(ModeOf(Stored(h, f)), k);
  }

  /** The hook is a pure re-derivation: a second typed character on the same object
      ends the same way and leaves the flags as the first one set them, whether or not
      it raised; it forwards the same flags again when it succeeds, and forwards
      nothing when it raises. */
  lemma TypedCharacterIdempotent(h: Host, obj: FocusObject)
    ensures TypedCharacter(TypedCharacter(h, obj).after, obj).outcome == TypedCharacter(h, obj).outcome
    ensures TypedCharacter(TypedCharacter(h, obj).after, obj).after.keyboard == TypedCharacter(h, obj).after.keyboard
    ensures TypedCharacter(h, obj).outcome.Done? ==>
      var once := TypedCharacter(h, obj).after;
      TypedCharacter(once, obj).after.forwarded == once.forwarded + [once.keyboard]
    ensures TypedCharacter(h, obj).outcome.Raised? ==>
      TypedCharacter(TypedCharacter(h, obj).after, obj).after.forwarded == h.forwarded
  {
  }

  /** Toggling from EDITABLE_ONLY: mode OFF, flag off, the "off" phrase. */
  lemma ToggleFromEditableOnly(h: Host, f: Feature)
    requires Stored(h, f) == Value(EditableOnly)
    ensures var s := ToggleMode(h, f);
      s.outcome == Done && Stored(s.after, f) == Value(Off) && !Live(s.after, f)
      && s.after.messages == h.messages + [StatusMessage(f, Off)]
  {
  }

  /** Toggling from OFF: mode ON, flag on, the "on" phrase. */
  lemma ToggleFromOff(h: Host, f: Feature)
    requires Stored(h, f) == Value(Off)
    ensures var s := ToggleMode(h, f);
      s.outcome == Done && Stored(s.after, f) == Value(On) && Live(s.after, f)
      && s.after.messages == h.messages + [StatusMessage(f, On)]
  {
  }

  /** Toggling from ON: mode EDITABLE_ONLY and the "editable controls
      only" phrase, with the flag left as it was rather than recomputed from the focus;
      the next typed character then sets it to whether the focus is editable. */
  lemma ToggleIntoEditableOnlyDefersFlag(h: Host, f: Feature, obj: FocusObject)
    requires Stored(h, f) == Value(On) && 0 <= Stored(h, Other(f)) < 3
    ensures var s := ToggleMode(h, f);
      && s.outcome == Done && Stored(s.after, f) == Value(EditableOnly)
      && Live(s.after, f) == Live(h, f)
      && s.after.messages == h.messages + [StatusMessage(f, EditableOnly)]
      && Live(TypedCharacter(s.after, obj).after, f) == IsEditable(obj)
  {
    var s := ToggleMode(h, f);
    assert ModesInRange(s.after) by {
      match f
      case Characters =>
      case Words =>
    }
    match f
    case Characters =>
    case Words =>
  }

  /** A typed character with both modes OFF silences both flags whatever the focus;
      with both ON it enables both. */
  lemma TypedCharacterOffAndOn(h: Host, obj: FocusObject)
    ensures h.storedCharacters == Value(Off) && h.storedWords == Value(Off) ==>
      TypedCharacter(h, obj).after.keyboard == Flags(false, false)
    ensures h.storedCharacters == Value(On) && h.storedWords == Value(On) ==>
      TypedCharacter(h, obj).after.keyboard == Flags(true, true)
  {
  }

  /** The six status phrases are pairwise different, so the message names both the
      feature and the new mode. */
  lemma StatusMessagesDistinct(f: Feature, m: Mode, g: Feature, n: Mode)
    requires StatusMessage(f, m) == StatusMessage(g, n)
    ensures f == g && m == n
  {
  }
}
