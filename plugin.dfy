/**
 The global plugin: two stored modes (typed characters, typed words), the two live
 keyboard-echo flags the speech layer reads, the status messages spoken after a
 toggle, and the event continuation. The pure functions below state what each
 operation does to that state; the class GlobalPlugin performs the same operations
 by updating its fields one at a time and is proved against them.
 */
module Plugin {
  import opened Modes
  import opened Focus

  /** The two announced features. */
  datatype Feature = Characters | Words

  function Other(f: Feature): (g: Feature)
    ensures g != f
  {
    match f
    case Characters => Words
    case Words => Characters
  }

  /** The live settings `keyboard.speakTypedCharacters` and `keyboard.speakTypedWords`. */
  datatype Flags = Flags(characters: bool, words: bool)

  /** Why an operation stopped: a stored mode that SpeakTypedMode rejects. */
  datatype PluginError = InvalidMode(feature: Feature, value: int)

  /** Done, or the exception an operation raised to the screen reader. */
  datatype Outcome = Done | Raised(error: PluginError)

  /** Everything the plugin reads or writes: the stored modes, the live flags, the
      messages spoken so far, and, per call of the continuation, the flags that the
      rest of the event pipeline then saw. */
  datatype Host = Host(
    storedCharacters: int,
    storedWords: int,
    keyboard: Flags,
    messages: seq<string>,
    forwarded: seq<Flags>)

  /** The state after an operation, and how it ended. */
  datatype Step = Step(after: Host, outcome: Outcome)

  function Stored(h: Host, f: Feature): int
  {
    match f
    case Characters => h.storedCharacters
    case Words => h.storedWords
  }

  function Live(h: Host, f: Feature): bool
  {
    match f
    case Characters => h.keyboard.characters
    case Words => h.keyboard.words
  }

  function WithStored(h: Host, f: Feature, v: int): (h': Host)
    ensures Stored(h', f) == v && Stored(h', Other(f)) == Stored(h, Other(f))
    ensures h'.keyboard == h.keyboard && h'.messages == h.messages && h'.forwarded == h.forwarded
  {
    match f
    case Characters => h.(storedCharacters := v)
    case Words => h.(storedWords := v)
  }

  function WithLive(h: Host, f: Feature, b: bool): (h': Host)
    ensures Live(h', f) == b && Live(h', Other(f)) == Live(h, Other(f))
    ensures h'.storedCharacters == h.storedCharacters && h'.storedWords == h.storedWords
    ensures h'.messages == h.messages && h'.forwarded == h.forwarded
  {
    match f
    case Characters => h.(keyboard := h.keyboard.(characters := b))
    case Words => h.(keyboard := h.keyboard.(words := b))
  }

  /** Both stored modes are values SpeakTypedMode accepts. */
  predicate ModesInRange(h: Host)
  {
    0 <= h.storedCharacters < 3 && 0 <= h.storedWords < 3
  }

  /** The value a setting has after construction: the persisted one, or 2 when absent. */
  function Defaulted(persisted: Option<int>): (v: int)
    ensures persisted.Some? ==> v == persisted.value
    ensures persisted.None? ==> v == 2 && FromValue(v) == Some(DefaultMode)
  {
    match persisted
    case Some(p) => p
    case None => Value(DefaultMode)
  }

  /** The echo flag one mode asks for while `obj` has the focus, computed as the event
      hook does; its contract states the flag as "on, or editable-only on an editable
      control". */
  function EchoFlag(mode: Mode, obj: FocusObject): (speak: bool)
    ensures speak <==> mode == On || (mode == EditableOnly && IsEditable(obj))
    ensures mode == Off ==> !speak
  {
    if mode == EditableOnly then IsEditable(obj) else mode == On
  }

  /** The name of a feature as the status phrases begin with it. */
  function FeatureName(f: Feature): string
  {
    match f
    case Characters => "speak typed characters"
    case Words => "speak typed words"
  }

  /** The words that follow the feature name for each new mode. */
  function ModePhrase(m: Mode): string
  {
    match m
    case Off => "off"
    case On => "on"
    case EditableOnly => "in editable controls only"
  }

  /** The six status phrases, three per feature ("speak typed characters off", ...,
      "speak typed words in editable controls only"): the feature's name, a space,
      and the phrase for the new mode. */
  function StatusMessage(f: Feature, m: Mode): (msg: string)
    ensures |msg| == |FeatureName(f)| + 1 + |ModePhrase(m)|
    ensures msg[..|FeatureName(f)|] == FeatureName(f)
    ensures msg[|FeatureName(f)|] == ' '
    ensures msg[|FeatureName(f)| + 1..] == ModePhrase(m)
  {
    FeatureName(f) + " " + ModePhrase(m)
  }

  /** `event_typedCharacter`: decode the characters mode and write its flag, decode
      the words mode and write its flag, then call the continuation once. A stored
      value SpeakTypedMode rejects raises at the point of decoding, so an invalid
      words mode leaves the characters flag already written and the continuation
      not called. */
  function TypedCharacter(h: Host, obj: FocusObject): (s: Step)
    ensures s.after.storedCharacters == h.storedCharacters && s.after.storedWords == h.storedWords
    ensures s.after.messages == h.messages
    ensures s.outcome.Done? <==> ModesInRange(h)
    ensures s.outcome.Done? ==>
      && s.after.keyboard.characters ==
           (h.storedCharacters == Value(On) || (h.storedCharacters == Value(EditableOnly) && IsEditable(obj)))
      && s.after.keyboard.words ==
           (h.storedWords == Value(On) || (h.storedWords == Value(EditableOnly) && IsEditable(obj)))
      && s.after.forwarded == h.forwarded + [s.after.keyboard]
    ensures !(0 <= h.storedCharacters < 3) ==>
      s == Step(h, Raised(InvalidMode(Characters, h.storedCharacters)))
    ensures 0 <= h.storedCharacters < 3 && !(0 <= h.storedWords < 3) ==>
      && s.outcome == Raised(InvalidMode(Words, h.storedWords))
      && s.after.keyboard.words == h.keyboard.words
      && s.after.keyboard.characters == EchoFlag(ModeOf(h.storedCharacters), obj)
      && s.after.forwarded == h.forwarded
  {
    match FromValue(h.storedCharacters)
    case None => Step(h, Raised(InvalidMode(Characters, h.storedCharacters)))
    case Some(charMode) =>
      var h1 := WithLive(h, Characters, EchoFlag(charMode, obj));
      match FromValue(h.storedWords)
      case None => Step(h1, Raised(InvalidMode(Words, h.storedWords)))
      case Some(wordMode) =>
        var h2 := WithLive(h1, Words, EchoFlag(wordMode, obj));
        Step(h2.(forwarded := h2.forwarded + [h2.keyboard]), Done)
  }

  /** `script_toggleSpeakTypedCharacters` (f = Characters) and
      `script_toggleSpeakTypedWords` (f = Words): store the successor mode, force the
      flag off on OFF and on on ON, leave it alone on EDITABLE_ONLY, and speak the
      phrase for the new mode. An invalid stored mode raises before anything changes. */
  function ToggleMode(h: Host, f: Feature): (s: Step)
    ensures s.outcome.Done? <==> 0 <= Stored(h, f) < 3
    ensures !(0 <= Stored(h, f) < 3) ==> s == Step(h, Raised(InvalidMode(f, Stored(h, f))))
    ensures s.outcome.Done? ==>
      && Stored(s.after, f) == (Stored(h, f) + 1) % 3
      && Live(s.after, f) ==
           (if Stored(s.after, f) == Value(Off) then false
            else if Stored(s.after, f) == Value(On) then true
            else Live(h, f))
      && Stored(s.after, Other(f)) == Stored(h, Other(f))
      && Live(s.after, Other(f)) == Live(h, Other(f))
      && s.after.messages == h.messages + [StatusMessage(f, ModeOf(Stored(s.after, f)))]
      && s.after.forwarded == h.forwarded
  {
    match FromValue(Stored(h, f))
    case None => Step(h, Raised(InvalidMode(f, Stored(h, f))))
    case Some(current) =>
      var newMode := Next(current);
      var h1 := WithStored(h, f, Value(newMode));
      var h2 :=
        match newMode
        case Off => WithLive(h1, f, false)
        case On => WithLive(h1, f, true)
        case EditableOnly => h1;
      Step(h2.(messages := h2.messages + [StatusMessage(f, newMode)]), Done)
  }

  /** The plugin object; its fields stand for the host's configuration entries it
      reads and writes, the message output and the event continuation. */
  class GlobalPlugin {
    var storedCharacters: int
    var storedWords: int
    var speakTypedCharacters: bool
    var speakTypedWords: bool
    var messages: seq<string>
    var forwarded: seq<Flags>

    /** The plugin's state as a Host value. */
    function State(): Host
      reads this
    {
      Host(storedCharacters, storedWords, Flags(speakTypedCharacters, speakTypedWords), messages, forwarded)
    }

    /** `__init__`: a setting that is absent is set to EDITABLE_ONLY (2); one that is
        present, valid or not, is kept. The live flags are whatever the host has. */
    constructor (persistedCharacters: Option<int>, persistedWords: Option<int>, keyboard: Flags)
      ensures storedCharacters == Defaulted(persistedCharacters)
      ensures storedWords == Defaulted(persistedWords)
      ensures speakTypedCharacters == keyboard.characters && speakTypedWords == keyboard.words
      ensures messages == [] && forwarded == []
    {
      var c := persistedCharacters;
      if c.None? {
        c := Some(Value(EditableOnly));
      }
      var w := persistedWords;
      if w.None? {
        w := Some(Value(EditableOnly));
      }
      storedCharacters := c.value;
      storedWords := w.value;
      speakTypedCharacters := keyboard.characters;
      speakTypedWords := keyboard.words;
      messages := [];
      forwarded := [];
    }

    /** The continuation `nextHandler`: the rest of the pipeline runs with the live
        flags as they are at the moment of the call. */
    method NextHandler()
      modifies this
      ensures forwarded == old(forwarded) + [Flags(speakTypedCharacters, speakTypedWords)]
      ensures storedCharacters == old(storedCharacters) && storedWords == old(storedWords)
      ensures speakTypedCharacters == old(speakTypedCharacters) && speakTypedWords == old(speakTypedWords)
      ensures messages == old(messages)
    {
      forwarded := forwarded + [Flags(speakTypedCharacters, speakTypedWords)];
    }

    /** `event_typedCharacter`. */
    method EventTypedCharacter(obj: FocusObject) returns (outcome: Outcome)
      modifies this
      ensures State() == TypedCharacter(old(State()), obj).after
      ensures outcome == TypedCharacter(old(State()), obj).outcome
    {
      var charMode := FromValue(storedCharacters);
      if charMode.None? {
        return Raised(InvalidMode(Characters, storedCharacters));
      }
      if charMode.value == EditableOnly {
        speakTypedCharacters := IsEditable(obj);
      } else {
        speakTypedCharacters := charMode.value == On;
      }

      var wordMode := FromValue(storedWords);
      if wordMode.None? {
        return Raised(InvalidMode(Words, storedWords));
      }
      if wordMode.value == EditableOnly {
        speakTypedWords := IsEditable(obj);
      } else {
        speakTypedWords := wordMode.value == On;
      }

      NextHandler();
      outcome := Done;
    }

    /** The shared body of the two toggle scripts, for feature `f`. */
    method Toggle(f: Feature) returns (outcome: Outcome)
      modifies this
      ensures State() == ToggleMode(old(State()), f).after
      ensures outcome == ToggleMode(old(State()), f).outcome
    {
      var stored := if f == Characters then storedCharacters else storedWords;
      var current := FromValue(stored);
      if current.None? {
        return Raised(InvalidMode(f, stored));
      }
      var newValue := FromValue((Value(current.value) + 1) % 3);
      var newMode := newValue.value;
      ValueInjective(newMode, Next(current.value));
      if f == Characters {
        storedCharacters := Value(newMode);
      } else {
        storedWords := Value(newMode);
      }

      var status: string;
      match newMode {
        case Off =>
          if f == Characters { speakTypedCharacters := false; } else { speakTypedWords := false; }
          status := StatusMessage(f, Off);
        case On =>
          if f == Characters { speakTypedCharacters := true; } else { speakTypedWords := true; }
          status := StatusMessage(f, On);
        case EditableOnly =>
          status := StatusMessage(f, EditableOnly);
      }
      messages := messages + [status];
      outcome := Done;
    }

    /** `script_toggleSpeakTypedCharacters` (NVDA+2). */
    method ScriptToggleSpeakTypedCharacters() returns (outcome: Outcome)
      modifies this
      ensures State() == ToggleMode(old(State()), Characters).after
      ensures outcome == ToggleMode(old(State()), Characters).outcome
    {
      outcome := Toggle(Characters);
    }

    /** `script_toggleSpeakTypedWords` (NVDA+3). */
    method ScriptToggleSpeakTypedWords() returns (outcome: Outcome)
      modifies this
      ensures State() == ToggleMode(old(State()), Words).after
      ensures outcome == ToggleMode(old(State()), Words).outcome
    {
      outcome := Toggle(Words);
    }
  }
}
