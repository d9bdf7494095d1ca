# Custom Speak Typed Characters for NVDA — verified model

This project models the NVDA global plugin `customSpeakTypedCharacters`. NVDA has
two keyboard-echo settings, "speak typed characters" and "speak typed words". The
plugin gives each of them a three-valued mode: OFF (0), ON (1) or EDITABLE_ONLY (2).
On every typed character, the plugin recomputes both live echo flags. It uses the
two stored modes and whether the focused object is an editable control. It then
passes the event on. Two gestures (NVDA+2 and NVDA+3) cycle one mode each and
announce the new mode.

Layout:

- `modes.dfy`, module `Modes`: the `SpeakTypedMode` enum. It has the integer
  conversion in both directions (the reverse one fails outside 0..2), the
  successor `(v + 1) % 3`, and n-fold cycling.
- `focus.dfy`, module `Focus`: the focused object, reduced to a role and a set of
  states. It holds the `is_editable` rule.
- `plugin.dfy`, module `Plugin`: the host state as a value (`Host`). Pure functions
  say what the event hook (`TypedCharacter`) and the toggle scripts (`ToggleMode`)
  do to it. The class `GlobalPlugin` has one field per configuration entry, plus
  the spoken messages and the continuation trace. Its methods update those fields
  step by step, and each is proved equal to its pure function.
- `properties.dfy`, module `PluginProperties`: properties of several operations.
  These cover runs of events, the invariant that stored modes stay decodable,
  the period-three cycle, idempotence of the hook and the EDITABLE_ONLY asymmetry.

Modelling choices:

- A conversion `SpeakTypedMode(int(...))` that raises `ValueError` becomes
  `Outcome.Raised(InvalidMode(feature, value))`. The model keeps the partial effect
  of the code as written. When the words mode is invalid, the characters flag has
  already been written. The continuation is then not called.
- `nextHandler()` is modelled as appending the live flags it observes to
  `forwarded`. "Called once, after both writes" is stated as: exactly one entry is
  appended, and it equals the freshly written flags.
- Moving into EDITABLE_ONLY leaves the live flag unchanged. This is as written in
  the code, and the model keeps it.
- A persisted setting is given to the constructor as `Option<int>`. `None` means
  the key is absent, and it becomes 2.

An invalid stored mode raises before `nextHandler()`, so the event is not
forwarded. The characters flag is written before the words mode is decoded, so an
invalid words mode leaves that write in place.

## Model

| member | source | states |
|---|---|---|
| Modes.Value | addon/globalPlugins/customSpeakTypedCharacters.py:26-29 | each mode's stored value lies in 0..2 |
| Modes.FromValue | addon/globalPlugins/customSpeakTypedCharacters.py:53 | `SpeakTypedMode(v)` succeeds exactly for v in 0..2, and gives the mode whose value is v |
| Modes.ModeOf | addon/globalPlugins/customSpeakTypedCharacters.py:77 | a stored value in range decodes to the mode with that value |
| Modes.ValueRoundTrip | addon/globalPlugins/customSpeakTypedCharacters.py:26-29 | decoding a mode's value gives the mode back |
| Modes.ValueInjective | addon/globalPlugins/customSpeakTypedCharacters.py:26-29 | distinct modes have distinct stored values |
| Modes.Next | addon/globalPlugins/customSpeakTypedCharacters.py:79 | the case table OFF→ON→EDITABLE_ONLY→OFF has value `(v + 1) % 3`, and it never maps a mode to itself |
| Modes.AdvanceValue | addon/globalPlugins/customSpeakTypedCharacters.py:79 | after n presses, the stored value is `(v + n) % 3` |
| Modes.AdvanceByThrees | addon/globalPlugins/customSpeakTypedCharacters.py:105 | any multiple of three presses returns a mode to its start |
| Modes.CycleHasPeriodThree | addon/globalPlugins/customSpeakTypedCharacters.py:78-79 | three successors return to the start, and one or two do not |
| Focus.IsEditable | addon/globalPlugins/customSpeakTypedCharacters.py:40-46 | READONLY always gives false. Without READONLY, the EDITABLE state or an editable-text, document or terminal role gives true. Any other role without EDITABLE gives false |
| Focus.ReadOnlyDocumentIsNotEditable | addon/globalPlugins/customSpeakTypedCharacters.py:45-46 | a read-only document is not editable |
| Focus.TerminalIsEditable | addon/globalPlugins/customSpeakTypedCharacters.py:45-46 | a terminal that is not read-only is editable |
| Plugin.Defaulted | addon/globalPlugins/customSpeakTypedCharacters.py:34-38 | a present value is kept as it is, and an absent one becomes 2, which decodes to EDITABLE_ONLY |
| Plugin.StatusMessage | addon/globalPlugins/customSpeakTypedCharacters.py:82-90 | each phrase is the feature name ("speak typed characters" or "speak typed words"), a space, and "off", "on" or "in editable controls only" for the new mode. The same function serves the words script at lines 108-116 |
| Plugin.EchoFlag | addon/globalPlugins/customSpeakTypedCharacters.py:54-57 | the flag is on iff the mode is ON, or the mode is EDITABLE_ONLY and the focus is editable. OFF always gives off |
| Plugin.TypedCharacter | addon/globalPlugins/customSpeakTypedCharacters.py:48-66 | stored modes and messages are unchanged. It succeeds iff both modes decode. On success, each flag is `mode == 1 or (mode == 2 and editable)`, and the continuation is called once with exactly those flags. An invalid characters mode changes nothing. An invalid words mode leaves the characters flag written, the words flag untouched and the continuation not called |
| Plugin.ToggleMode | addon/globalPlugins/customSpeakTypedCharacters.py:73-92 | it succeeds iff the stored mode decodes, and an invalid one changes nothing. It stores `(v + 1) % 3`. The flag becomes false on OFF and true on ON, and is kept on EDITABLE_ONLY. The other feature's mode and flag are untouched. Exactly the phrase for the new mode is appended |
| Plugin.GlobalPlugin.constructor | addon/globalPlugins/customSpeakTypedCharacters.py:32-38 | an absent setting becomes 2, and a present one is kept, valid or not |
| Plugin.GlobalPlugin.NextHandler | addon/globalPlugins/customSpeakTypedCharacters.py:66 | the continuation observes the live flags as they are, and changes nothing else |
| Plugin.GlobalPlugin.EventTypedCharacter | addon/globalPlugins/customSpeakTypedCharacters.py:48-66 | the in-place writes leave exactly the state and the outcome of `TypedCharacter` |
| Plugin.GlobalPlugin.Toggle | addon/globalPlugins/customSpeakTypedCharacters.py:77-92 | the in-place writes leave exactly the state and the outcome of `ToggleMode` |
| Plugin.GlobalPlugin.ScriptToggleSpeakTypedCharacters | addon/globalPlugins/customSpeakTypedCharacters.py:73-92 | it has the state and the outcome of `ToggleMode` for the characters feature |
| Plugin.GlobalPlugin.ScriptToggleSpeakTypedWords | addon/globalPlugins/customSpeakTypedCharacters.py:99-118 | it has the state and the outcome of `ToggleMode` for the words feature |
| PluginProperties.DispatchKeepsModesInRange | addon/globalPlugins/customSpeakTypedCharacters.py:77-80 | from decodable modes, one event does not raise and keeps the modes decodable. A gesture adds one message and a key adds one continuation call |
| PluginProperties.RunKeepsModesInRange | addon/globalPlugins/customSpeakTypedCharacters.py:103-106 | from decodable modes, no run of events raises and the modes stay decodable. Messages grow by the number of gestures, and continuation calls by the number of typed characters |
| PluginProperties.PressesAdvanceMode | addon/globalPlugins/customSpeakTypedCharacters.py:103-106 | n presses advance the stored mode n steps through the cycle and add n messages. The other feature's mode and flag are unchanged |
| PluginProperties.PressesByThreesRestoreMode | addon/globalPlugins/customSpeakTypedCharacters.py:77-80 | three presses, or any multiple of three, restore the stored mode |
| PluginProperties.TypedCharacterIdempotent | addon/globalPlugins/customSpeakTypedCharacters.py:52-66 | a second typed character on the same object gives the same outcome and the same flags on every path, including after a raise. It forwards the flags again on success and forwards nothing on a raise |
| PluginProperties.ToggleFromEditableOnly | addon/globalPlugins/customSpeakTypedCharacters.py:82-85 | from EDITABLE_ONLY, a toggle gives OFF, the flag off and the "off" phrase |
| PluginProperties.ToggleFromOff | addon/globalPlugins/customSpeakTypedCharacters.py:86-88 | from OFF, a toggle gives ON, the flag on and the "on" phrase |
| PluginProperties.ToggleIntoEditableOnlyDefersFlag | addon/globalPlugins/customSpeakTypedCharacters.py:89-90 | from ON, a toggle gives EDITABLE_ONLY and its phrase, and the flag is kept. The next typed character sets the flag to the focus's editability |
| PluginProperties.TypedCharacterOffAndOn | addon/globalPlugins/customSpeakTypedCharacters.py:56-57 | with both modes OFF both flags are off, and with both modes ON both are on, whatever the focus |
| PluginProperties.StatusMessagesDistinct | addon/globalPlugins/customSpeakTypedCharacters.py:111-116 | the six status phrases are pairwise different |

## Left out

- The configuration store (`config.conf`) and the registration of the configuration spec (lines 19-24) are not modelled. The stored modes and live flags are plain fields.
- Settings are integers here. `int(...)` applied to a non-integer stored value is not modelled, because the configuration spec declares the keys as integers.
- `ui.message` is modelled only as appending the phrase to `messages`. Speech output is host I/O.
- Translation (`addonHandler.initTranslation`, `_()`) is left out. The six phrases are the untranslated English strings.
- The `@script` decorator, the gesture bindings NVDA+2 and NVDA+3, the script category and the `GlobalPlugin` base class are left out. They are the host's input dispatch.
- The NVDA object tree and the full set of `controlTypes` roles and states are left out. They are reduced to the three named roles, the two named states and an "other" value for each.
- What the rest of the pipeline does after `nextHandler()` is left out. Only the call and the flags it observes are modelled. The typed character `ch` is not inspected by the code, so it is not a parameter.
- `PluginProperties.Run` assumes one thing about the host: after an operation raises, the screen reader logs the exception and goes on dispatching events. That behaviour belongs to NVDA, not to this plugin.
