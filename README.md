# Smart-home dashboard: device model, command interpreter and layout update

This project models the deterministic core of a smart-home dashboard. The
dashboard holds a *home layout*: rooms placed on a grid, each holding devices
(lights, cameras, switches, thermostats, speakers, TVs). Two operations
compute a new layout from the old one:

- the **voice/text command interpreter** (`handleVoiceCommand`). For every
  device it builds the identifier "<room name> <device name>" and lower-cases
  it. A device whose identifier occurs in the command is targeted. Three
  rules then write a partial device record in a fixed order: power
  ("turn on" / "turn off" as a prefix of the command), brightness (the
  leftmost "brightness to N", "set to N" or "dim to N", clamped to 0..100)
  and colour (the leftmost "color to W", "change to W" or "set to W", looked up
  in a nine-entry palette). Later writes overwrite earlier ones. The new
  layout is published only if some rule fired;
- the **layout mutation primitive** (`handleDeviceUpdate`). It merges a
  partial record into every device that carries a given id, and rebuilds the
  room and device tree around it.

The modules are:

- `Types` (types.dfy): the data model.
- `Dashboard` (dashboard.dfy): the update primitive as a pure function, with
  its frame and idempotence lemmas.
- `TextMatch` (text_match.dfy): substring and prefix tests, ASCII
  lower-casing, and the leftmost-match search of a non-global
  `String.prototype.match` for the two patterns.
- `VoiceCommand` (voice_command.dfy) holds the interpreter twice. The first
  form is a declarative specification: `RuleUpdate` gives each field the value
  of the last rule that writes it, and `Interpret` maps it over rooms and
  devices. The second form is the handler's imperative shape: `EvaluateDevice`
  writes the record field by field and raises a flag, and
  `EvaluateRoom`/`EvaluateRooms` loop over devices and rooms while
  collecting `commandProcessed`, and `HandleVoiceCommand` publishes the
  result. Each method is proved equal to its specification.
- `VoiceCommandProperties` (voice_command_properties.dfy): what the rules do,
  what the traversal keeps, and the validity invariant.
- `VoiceCommandExamples` (voice_command_examples.dfy): worked commands.

Two behaviours of the code are easy to miss:

- **The command is not lower-cased.** Only the identifier is. A command
  starting "Turn on" sets no power state (`CapitalisedTurnOnIsIgnored`).
- **"Processed" means a rule fired, not that a value changed.** "turn on" for
  a device that is already on still marks the command processed
  (`FiredWithoutChange`).

## Model

| member | source | states |
|---|---|---|
| Types.ParseType | types.ts:1-8 | a string is read as a device kind exactly when it is that kind's value; any other string is no kind |
| Types.TypeNameRoundTrip | types.ts:1-8 | the six kinds have distinct string values: parsing a kind's value gives the kind back |
| Dashboard.Merge | components/Dashboard.tsx:20 | each field present in the update is the update's value, each absent field keeps the device's value, and an empty update changes nothing |
| Dashboard.UpdateDevices | components/Dashboard.tsx:18-23 | same length; every device whose id is the target is merged with the update, every other device is unchanged |
| Dashboard.UpdateRooms | components/Dashboard.tsx:17-25 | same number and order of rooms; each room keeps its other fields and only its devices are rebuilt |
| Dashboard.HandleDeviceUpdate | components/Dashboard.tsx:13-29 | a missing layout stays missing, and only it does; the room count is kept |
| Dashboard.UpdatedDevice | components/Dashboard.tsx:17-27 | at room i, slot j: the room keeps name, grid and device count; a non-target is unchanged; a target has exactly the fields present in the update overwritten and all others kept |
| Dashboard.UnknownIdLeavesLayout | components/Dashboard.tsx:17-27 | when no device carries the id, the result equals the input layout |
| Dashboard.MergeIdempotent | components/Dashboard.tsx:20 | merging the same record twice equals merging it once |
| Dashboard.UpdateIdempotent | components/Dashboard.tsx:13-29 | applying the same update twice gives the layout applying it once gives, even when the update rewrites the id |
| TextMatch.Lower | App.tsx:38 | the length is kept, no upper-case ASCII letter remains, every other character is kept, and each upper-case letter becomes the letter 32 code points above it |
| TextMatch.LowerKeepsLowerCase | App.tsx:67 | a string without upper-case letters is its own lower-case form |
| TextMatch.Run | App.tsx:52 | the greedy `\d+`/`\w+` run is the slice at j, all class characters, and maximal: it ends at the end or before a character outside the class |
| TextMatch.MatchAltsAt | App.tsx:52 | a match at i captures a non-empty run of class characters |
| TextMatch.MatchAltsAtNone | App.tsx:52 | there is no match at i exactly when no alternative, followed by a space and a class character, occurs at i |
| TextMatch.MatchAltsAtFirst | App.tsx:52 | a match at i comes from an alternative that matches there, and every alternative listed before it fails there |
| TextMatch.MatchAltsAtSome | App.tsx:52 | a match at i captures the run after the first alternative that matches there |
| TextMatch.MatchAltsAtFinds | App.tsx:52 | when the n-th alternative matches at i and none before it does, the match at i captures the run after it |
| TextMatch.PhraseRun | App.tsx:52 | when an alternative, a space and a maximal class run occur at i, the alternative matches there and the run after it is that run |
| TextMatch.CaptureOfPhrase | App.tsx:52 | an alternative, a space and a maximal class run at i, with no earlier alternative matching at i and no match before i, make that run the capture |
| TextMatch.CaptureAfterPrefix | App.tsx:52 | a command made of a prefix holding no alternative's first letter, an alternative, a space, a maximal run and the rest captures that run |
| TextMatch.Leftmost | App.tsx:65 | a found index matches and no index before it does; none found means no index matches |
| TextMatch.Capture | App.tsx:65 | the captured group is non-empty and made of class characters |
| TextMatch.NoMatchWithin | App.tsx:52 | no match starts in a stretch holding none of the alternatives' first letters |
| TextMatch.CaptureAt | App.tsx:65 | a match at j with none before it is the capture |
| TextMatch.NoCapture | App.tsx:65 | no match anywhere means no capture |
| TextMatch.SkipLetters | App.tsx:52 | the leftmost search passes over a stretch holding none of the alternatives' first letters |
| TextMatch.SkipPosition | App.tsx:52 | the leftmost search passes over an index where every alternative fails |
| TextMatch.ContainsIffSplit | App.tsx:41 | `includes` holds exactly when the command is some text, the identifier, and some text |
| TextMatch.StartsWithIffPrefix | App.tsx:43 | `startsWith` holds exactly when the command is the prefix followed by some text |
| TextMatch.OccursInConcat | App.tsx:41 | b occurs in a + b + r right after a |
| TextMatch.Mismatch | App.tsx:41 | p does not occur at i when one of its letters differs from the command there |
| TextMatch.RunUntil | App.tsx:52 | the run stops exactly at the first character outside the class |
| TextMatch.DecimalValue | App.tsx:55 | the value of k digits is below ten to the k |
| TextMatch.DecimalLeadingZero | App.tsx:55 | a leading zero does not change the value, as with `parseInt` |
| VoiceCommand.Identifier | App.tsx:38 | the identifier is the room name, one space and the device name, with each character lower-cased; it holds no upper-case letter |
| VoiceCommand.Targets | App.tsx:41 | a targeted device's identifier fits inside the command |
| VoiceCommand.Clamp | App.tsx:55 | the result is within 0..100; values inside are kept, values above give 100, values below give 0 |
| VoiceCommand.PowerState | App.tsx:43-49 | a power state is set exactly when the command starts with "turn on" or "turn off"; it is 'on' exactly when it starts with "turn on"; it is 'off' exactly when it starts with "turn off" and not with "turn on" |
| VoiceCommand.BrightnessLevel | App.tsx:52-56 | a level exists exactly for a light when the brightness pattern captures, and it lies in 0..100 |
| VoiceCommand.ColorValue | App.tsx:65-75 | a colour is set only for a light and is always one of the palette's values |
| VoiceCommand.FinalState | App.tsx:45-77 | the state written is only ever 'on' or 'off'; a palette colour switches an off light on; level 0 writes 'off' unless that colour rule applies; without brightness or colour (and for every non-light) the power rule decides |
| VoiceCommand.RuleUpdate | App.tsx:37-81 | the record never carries id, name or type, carries no brightness or colour for a non-light, and is non-empty exactly when the device is targeted and some rule applies |
| VoiceCommand.InterpretDevice | App.tsx:37-82 | id, name and type are kept; a rule fired exactly when the device is targeted and some rule applies; when none fired the device is unchanged; a non-light keeps brightness and colour |
| VoiceCommand.InterpretDevices | App.tsx:37-83 | same length; each device is interpreted in place; the flag is raised exactly when some device fired |
| VoiceCommand.InterpretRoom | App.tsx:36-84 | the room keeps its name, grid position and span and its number of devices; each device is interpreted in place; the flag is raised exactly when some device of the room fired |
| VoiceCommand.InterpretRooms | App.tsx:36-85 | same number of rooms; each room is interpreted in place; the flag is raised exactly when some room fired |
| VoiceCommand.Interpret | App.tsx:31-91 | a missing layout ignores the command; when nothing fired the layout is kept; when something fired a layout with as many rooms is published |
| VoiceCommand.EvaluateDevice | App.tsx:37-82 | the field-by-field rule sequence with its flag computes exactly the declarative device result |
| VoiceCommand.EvaluateRoom | App.tsx:37-84 | the loop over a room's devices computes the declarative room result |
| VoiceCommand.EvaluateRooms | App.tsx:34-85 | the loop over rooms with the `commandProcessed` accumulator computes exactly the declarative rooms and flag |
| VoiceCommand.HandleVoiceCommand | App.tsx:31-91 | a missing layout is left as is; otherwise the rebuilt layout is published exactly as the declarative result says |
| VoiceCommandProperties.NoIdentifierNoChange | App.tsx:38-41 | when no identifier occurs in the command, every room and device is returned unchanged and nothing is published |
| VoiceCommandProperties.TurnOnExcludesTurnOff | App.tsx:43-46 | no command starts with both "turn on" and "turn off" |
| VoiceCommandProperties.PowerRule | App.tsx:43-49 | the power prefix fires for every targeted device of any type; a non-light takes its state; after "turn on" a light is on unless the level is 0; after "turn off" it is off unless it was off before |
| VoiceCommandProperties.BrightnessRule | App.tsx:52-56 | a targeted light gets the clamped value of the leftmost captured digits, within 0..100; without a capture its brightness is kept |
| VoiceCommandProperties.BrightnessSwitchesState | App.tsx:57-61 | level 0 turns the light off (unless the colour rule switches an off light on); a positive level switches an off light on; otherwise the power rule decides |
| VoiceCommandProperties.ColorRule | App.tsx:65-79 | no colour capture keeps the colour; a palette word sets exactly its hex value, fires, switches an off light on, and leaves a light that was on in the power rule's state when there is no brightness phrase; any other word keeps the colour |
| VoiceCommandProperties.BrightnessCaptureAfterPrefix | App.tsx:52 | a brightness phrase and digits after a prefix without 'b', 's' and 'd' are the brightness capture |
| VoiceCommandProperties.ColorCaptureAfterPrefix | App.tsx:65 | a colour phrase and word after a prefix without 'c' and 's' are the colour capture |
| VoiceCommandProperties.UnknownColorIsNoMatch | App.tsx:73-79 | an unknown colour word, without a power or brightness phrase, changes nothing and fires nothing |
| VoiceCommandProperties.LaterRuleOverridesPower | App.tsx:43-61 | "turn off" with a positive level leaves a light that was off switched on |
| VoiceCommandProperties.FiredWithoutChange | App.tsx:43-45 | "turn on" for a switch that is already on fires without changing it |
| VoiceCommandProperties.InterpreterEditIsMerge | App.tsx:82 | the interpreter's edit is the dashboard's object-spread merge of a record with no id |
| VoiceCommandProperties.PaletteIsHex | App.tsx:68-72 | every palette value is a `#RRGGBB` colour |
| VoiceCommandProperties.PaletteNamesAreLowerCase | App.tsx:67-73 | every palette name is its own lower-case form, so a colour word is found whatever its letter case |
| VoiceCommandProperties.TargetsIffIdentifierInside | App.tsx:38-41 | a device is targeted exactly when the command is some text, its identifier, and some text |
| VoiceCommandProperties.InterpretKeepsDeviceValid | types.ts:10-17 | a device with brightness and colour only on lights, brightness in 0..100 and a hex colour stays so |
| VoiceCommandProperties.InterpretKeepsStructure | App.tsx:36-85 | every room keeps name and grid; every device keeps slot, id, name and type |
| VoiceCommandProperties.FiringDeviceOfProcessed | App.tsx:34-85 | a processed command names a room and device that fired |
| VoiceCommandProperties.FiringDeviceProcesses | App.tsx:34-85 | any device firing marks the command processed |
| VoiceCommandProperties.ProcessedIffSomeRuleFired | App.tsx:34-89 | the command is processed exactly when some device of some room fired |
| VoiceCommandProperties.ProcessedPublishesRebuiltRooms | App.tsx:87-89 | a processed command publishes the layout of the rebuilt rooms |
| VoiceCommandProperties.InterpretKeepsLayoutValid | types.ts:10-34 | handling a command keeps every device of the layout within its documented shape |
| VoiceCommandExamples.SceneHasNoBrightness | App.tsx:52 | "turn on living room main light and set to blue" has no brightness capture |
| VoiceCommandExamples.SceneColorIsBlue | App.tsx:65 | its colour capture is "blue" |
| VoiceCommandExamples.CapturedBlue | App.tsx:67-75 | a captured "blue" gives a light #0074D9 |
| VoiceCommandExamples.SceneMainLight | App.tsx:37-82 | the off main light is switched on and turned blue, and its brightness is kept |
| VoiceCommandExamples.TurnOnAndSetToBlue | App.tsx:31-91 | the one-room layout is published with the main light on and blue |
| VoiceCommandExamples.ShadowBrightness | App.tsx:52 | in "hall lamp set to 50 then color to red" the brightness capture is "50" |
| VoiceCommandExamples.ShadowColor | App.tsx:65 | the colour capture of the same command is also "50": the leftmost "set to" shadows "color to red" |
| VoiceCommandExamples.NoPowerWord | App.tsx:43-49 | a command not starting with a lower-case 't' sets no power state |
| VoiceCommandExamples.ShadowLamp | App.tsx:37-82 | the lamp takes brightness 50 and keeps its state and colour |
| VoiceCommandExamples.SetToNumberHidesLaterColor | App.tsx:31-91 | the layout is published with only the lamp's brightness changed |
| VoiceCommandExamples.CapitalHasNoCaptures | App.tsx:52-65 | "Turn on hall lamp" has neither capture |
| VoiceCommandExamples.CapitalisedTurnOnIsIgnored | App.tsx:31-91 | "Turn on hall lamp" leaves the layout as it was and is not processed |
| VoiceCommandExamples.BrightnessAboveRangeIsClamped | App.tsx:52-56 | "hall lamp brightness to 150" fires and sets the lamp's brightness to 100 |
| VoiceCommandExamples.ColorWordSetsPaletteColor | App.tsx:65-75 | "hall lamp color to red" fires and sets the lamp's colour to #FF4136 |
| VoiceCommandExamples.UnknownColorWordIsIgnored | App.tsx:31-91 | "hall lamp color to mauve" leaves the layout as it was and is not processed |

## Left out

- services/geminiService.ts is not part of this model. It is a network call to a generative-AI client followed by JSON parsing. The same goes for the asynchronous layout generation with its loading and error state (App.tsx:13-29), which is I/O orchestration around that client.
- React rendering, hooks and event handlers are not modelled: the components other than the two handlers, the speech hook, and the slider, toggle and colour inputs of components/Device.tsx. The handlers in Device.tsx only call the update primitive, whose effect `Dashboard.HandleDeviceUpdate` covers. `setHomeLayout` is modelled as returning the new layout.
- JavaScript numbers are modelled as unbounded integers. `parseInt` of a digit run is modelled as its natural-number value. For very long digit runs JavaScript gives a float or Infinity, but clamping gives the same 100 either way.
- `toLowerCase` is modelled on ASCII letters only (`TextMatch.Lower`). Other Unicode case mappings are not modelled.
- The colour table is modelled as a nine-entry map. Looking up a word such as "constructor" on the JavaScript object literal finds a prototype member. That engine artefact is not reproduced: such words count as unknown colours.
- Regular expressions are modelled only for the two fixed patterns the interpreter uses: a leftmost search where, at each index, the alternatives are tried in order, followed by a space and a greedy `\d+` or `\w+` run. Nothing follows the group, so no backtracking is needed.
- `Types.ValidDevice` (brightness and colour only on lights, brightness in 0..100, colour `#RRGGBB`) is the documented shape of a device, not something the code checks. The model proves that the interpreter keeps it, but the update primitive accepts any record, as the code does.
- A partial record whose field is present but explicitly `undefined` is not modelled. Every field of `DeviceUpdate` is either absent or carries a value.
