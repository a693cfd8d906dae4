# Stagetec NXCT Ember+ control module: a Dafny model

This project models the core of the Companion module that controls a Stagetec NXCT audio
interface over Ember+. The module does four things:

- **Discovery** (`src/index.ts`). It compiles path filter rules from the configuration
  toggles and walks the provider's tree under them. Every parameter that passes is registered
  under its dotted label, and its value is mirrored in a canonical form and published as a
  variable. Enumeration parameters also seed the four choice lists: headphone sources, input
  processing sources, output sources and microphone high-pass values.
- **Actions** (`src/actions.ts`). Each value action resolves a target parameter from the
  chosen path and optional source, and computes what it writes: a clamped value, a step, a
  toggled boolean or a snapshot load. The actions dictionary is built from the general actions
  and the per-interface actions of every enabled area.
- **Feedbacks** (`src/feedback.ts`). The feedback callbacks compare a mirrored value with an
  option, using JavaScript's loose equality and coercions. The module-level feedback table is
  filled key by key.
- **Variables** (`src/variables.ts`). There is one variable definition per registered
  parameter.

Modules:

- `Strings`: the JavaScript string operations used (`includes`, `split`, `join`, `Number`).
- `Ember`: the shared records: tree elements, parameter content, configuration and registry
  entries.
- `Filters`: rule compilation and the walk's per-child decisions.
- `Normalize`: canonical values and choice capture.
- `Variables`.
- `Engine`: the class `EmberPlusEngine`, whose methods update the instance's fields as the
  source does. Each method is proved against a specification function over `EngineState`.
- `Tables`: dictionaries filled key by key, with their insertion order.
- `Feedback`: the class `FeedbackTable` for `curr_feedbacks`.
- `Actions`.

The tree is given with its children already fetched, so directory requests are not modelled.
A write that an action would send is returned as a `Write` value. Calls into the host
framework (feedback checks, variable values and definitions, change subscriptions) are
recorded in logs in the engine state.

Where the module's written description and its code differ, this model follows the code:

- Labels are the full dotted identifier path from the root (for example
  `Audio.Inputs.Mic.Gain`), not a shortened alias.
- `setupParseFilters` empties the registry, the rules and the choice lists, but it keeps the
  mirrored values.
- Stale directory responses are not dropped by any generation counter: the code has none.
- The mix-bus range check applies only when both bounds are truthy, so a bound of 0 switches
  it off.
- The range check also prunes a bus more than three above the start (`busNum - start > 3`), so
  with range 1..24 bus 5 is pruned, although the description says it is descended.

## Model

| member | source | states |
|---|---|---|
| Filters.Elements | src/index.ts:115-141 | a rule's segments are its path split on '.', at least one, and joining them gives the path back |
| Filters.RuleIf | src/index.ts:116-141 | an enabled area contributes exactly one rule, a disabled one none |
| Filters.CompileFiltersShape | src/index.ts:107-143 | the compiled rules start with the snapshot rule and number one more than the enabled areas; every rule's segments join back to its path |
| Filters.CompileFiltersAll | src/index.ts:115-142 | with every toggle on all eleven rules are compiled, in the source's order |
| Filters.FirstMatch | src/index.ts:203-207 | the first rule letting a child through at this depth; none exactly when no rule does |
| Filters.BusPrunedIff | src/index.ts:208-216 | for a numeric bus suffix k and truthy bounds, a bus is kept exactly when start <= k <= end and k <= start + 3 |
| Filters.BusPrunedExamples | src/index.ts:208-216 | with range 1..24 bus 4 is kept, bus 5 and bus 0 are pruned; a start of 0 switches the check off |
| Filters.ChildLabelSegments | src/index.ts:220-224 | a child label extends its parent's and splits into the parent's segments plus the identifier |
| Filters.LeafMatchesIff | src/index.ts:231-238 | a parameter is registered exactly when some rule's path is a prefix of its label |
| Normalize.At | src/index.ts:161 | `Array.at`: a negative index counts from the end; out of range or infinite gives undefined; NaN reads as 0; a found entry is in the list |
| Normalize.AtWraps | src/index.ts:161 | index i - length reaches the same entry as index i |
| Normalize.EnumTextIsLine | src/index.ts:159-161 | an enumeration parameter shows one of its lines or the empty string |
| Normalize.Scaled | src/index.ts:164-166 | only a non-integral quotient of a non-zero factor is kept abstract |
| Normalize.ScaledExact | src/index.ts:164-166 | an exact quotient is shown as text that reads back as the quotient, and times the factor gives the raw value |
| Normalize.Canonical | src/index.ts:148-169 | an enumerated value is one of its lines or empty: the line at an integer index, counted from the end for a negative one, and "" past either end; a value with neither enumeration nor factor is passed through unchanged (integer, text or boolean), an absent one becomes "" |
| Normalize.CanonicalEnumExamples | src/index.ts:159-161 | for a three-line enumeration 2 and -1 select the last line, 9 selects nothing, a non-number selects the first |
| Normalize.CanonicalScaledExamples | src/index.ts:164-166 | 480/10 shows "48", 485/10 is a fraction, 5/0 shows "Infinity", an absent value "NaN" |
| Normalize.CaptureOnlyFillsEmpty | src/index.ts:150-158 | a capture fills at most one list, only an empty one, only with the enumeration's lines |
| Normalize.CaptureIdleWhenFull | src/index.ts:150-158 | once all four lists are set, capturing changes nothing |
| Normalize.HighPassCapturedAsHeadphone | src/index.ts:150-157 | an "HPF" path fills the headphone list while that is empty; the high-pass list is only filled once the headphone list is set |
| Variables.Definitions | src/variables.ts:6-9 | one definition per registry entry in order, named by the protocol path with the label as id |
| Variables.GetVariablesList | src/variables.ts:4-11 | no registry gives no definitions, otherwise the registry's definitions |
| Variables.DefinitionsAppend | src/variables.ts:4-11 | registering one more parameter appends exactly its definition |
| Variables.VariableIdsAreLabels | src/variables.ts:6-9 | the variable ids are exactly the registered labels, both ways |
| Engine.ChangedValueEffect | src/index.ts:145-177 | a value change mirrors the canonical value under the path, publishes exactly that variable, checks every feedback once, fills only empty choice lists and keeps the registry; a non-parameter changes nothing |
| Engine.ChangedValueMirrorIdempotent | src/index.ts:159-169 | handling the same notification twice leaves the mirror as once |
| Engine.CaptureCascades | src/index.ts:150-155 | choice capture is not idempotent: an HP output path fills the headphone list first and the output list on its next notification |
| Engine.AddMonitoredEffect | src/index.ts:245-255 | registration appends one entry with the protocol path (or "") and label, subscribes the label, republishes all definitions and mirrors the value |
| Engine.WalkEvolves | src/index.ts:179-243 | discovery only appends to the registry, only with labels some rule prefixes, subscribes them in order, never replaces a set choice list, never drops a mirror key, and keeps every registered label mirrored |
| Engine.WalkChildrenEvolves | src/index.ts:183-229 | the same for the children of a node from any index on |
| Engine.VisitChildEvolves | src/index.ts:184-228 | the same for one child |
| Engine.VisitChildSkips | src/index.ts:188-216 | an excluded sub-area, an offline node, a child no rule lets through and a pruned bus leave the state unchanged |
| Engine.SingleParameterRegistered | src/index.ts:179-238 | a node whose only child is a passing parameter registers exactly that parameter under its child label |
| Engine.EmberPlusEngine.constructor | src/index.ts:107-143 | a new instance holds the configuration, the compiled rules and an empty state |
| Engine.EmberPlusEngine.SetupParseFilters | src/index.ts:107-143 | the rules become the compiled rules; registry and choice lists are emptied; nothing else changes |
| Engine.EmberPlusEngine.ClearDiscovery | src/index.ts:108-113 | registry, rules and the four lists become empty; nothing else changes |
| Engine.EmberPlusEngine.PushRuleIf | src/index.ts:116-117 | one conditional push of a rule |
| Engine.EmberPlusEngine.CaptureSources | src/index.ts:150-158 | the lists become `CaptureChoices` of the old lists |
| Engine.EmberPlusEngine.HandleChangedValue | src/index.ts:145-177 | the new state is `ChangedValue` of the old one |
| Engine.EmberPlusEngine.NormalizeValue | src/index.ts:148-169 | the value is `Canonical` of the content; the lists are captured only for an enumeration |
| Engine.EmberPlusEngine.CheckFeedbacks | src/index.ts:171-173 | one check per feedback key, in order |
| Engine.EmberPlusEngine.AddMonitoredParameter | src/index.ts:245-255 | the new state is `AddMonitored` of the old one; rules and configuration unchanged |
| Engine.EmberPlusEngine.HandleEmberTreeParsing | src/index.ts:179-243 | the new state is `Walk` of the old one; rules and configuration unchanged |
| Engine.EmberPlusEngine.HandleChild | src/index.ts:184-228 | the new state is `VisitChild` of the old one |
| Feedback.Filtered | src/feedback.ts:73-75 | the kept labels are at most the registry's and all pass the filter |
| Feedback.FilteredAppend | src/feedback.ts:73-75 | filtering keeps the registry's order |
| Feedback.FilteredMembers | src/feedback.ts:73-75 | a label is offered exactly when a registry entry has it and the filter keeps it |
| Feedback.ChoicesMembers | src/feedback.ts:72-75 | the same for every dropdown, and no registry offers nothing |
| Feedback.ChoicesAfterRegistration | src/feedback.ts:111-127 | registering a kept label appends it as the last choice; any other leaves the choices |
| Feedback.ThresholdsStrict | src/feedback.ts:193-238 | `hitThreshold` and `belowThreshold` are strict and exclusive, and a finite value that hits neither equals the threshold |
| Feedback.ToggleEqualsBool | src/feedback.ts:154-158 | a boolean matches exactly its own value; the text "true" does not loosely equal true, the text "1" does |
| Feedback.Entry | src/feedback.ts:303 | `list[index]` is defined exactly for an integer index in range |
| Feedback.SourceExpected | src/feedback.ts:297-312 | the expected source comes from one of the three lists, tried in order: the headphone list for an HP parent and an index in range, else the input processing list for an InputProcessing parent and an index in range, else the output list; a negative or non-integer index, or one past all three lists, gives undefined |
| Feedback.SourceFallsThrough | src/feedback.ts:300-311 | an HP index past the headphone list falls through to the output list; a negative index gives undefined |
| Feedback.HPFExpected | src/feedback.ts:353-355 | the expected high-pass value is defined exactly for an index in range |
| Feedback.HPFEqualsCases | src/feedback.ts:350-356 | an absent variable matches exactly when the index is out of range; a text matches exactly the entry at the index |
| Feedback.GeneralEntries | src/feedback.ts:53-242 | the four general feedbacks are all defined |
| Feedback.InterfaceGating | src/feedback.ts:251-360 | both interface keys are present and exactly one is defined: HPFEqual for a Mic parent, SourceEqual otherwise |
| Feedback.FeedbackTable.constructor | src/feedback.ts:18 | the table starts empty |
| Feedback.FeedbackTable.PutAll | src/feedback.ts:26-27 | one copy loop writes the entries in order and keeps the keys distinct and in step with the definitions |
| Feedback.FeedbackTable.GetFeedbacksList | src/feedback.ts:20-51 | the table gets the general feedbacks, then those of HP, input processing, output processing and Mic when enabled; earlier keys stay |
| Feedback.FeedbackTable.PutGroup | src/feedback.ts:29-32 | one conditional block appends its group's writes |
| Tables.StoreKeeps | src/actions.ts:360-363 | after the writes a key is present exactly when it was before or was written; an unwritten key keeps its definition |
| Tables.StoreLastWrite | src/actions.ts:362-363 | the last write of a key decides its definition |
| Tables.StoreAppend | src/actions.ts:362-440 | two write loops in a row equal one loop over the concatenation, for definitions and key order |
| Tables.StoreOrderValid | src/feedback.ts:18-51 | the key order extends the old one, has no duplicates and lists exactly the stored keys |
| Tables.WriteAll | src/actions.ts:362-363 | the copy loop's result is `Store`/`StoreOrder` of the entries |
| Actions.ResolveTarget | src/actions.ts:23-37 | the parameter number never contains '.' |
| Actions.ResolveInverse | src/actions.ts:34-37 | without a source, parent, '.' and number give `varPath` back; a path without a dot is a number under the root |
| Actions.ResolveParentAndNumber | src/actions.ts:34-38 | a parent path and a number resolve to exactly that parent and number |
| Actions.ResolveWithSource | src/actions.ts:25-33 | with source `head.bus.num` the target is the channel's parent with the bus appended, and the number is num |
| Actions.SplitTarget | src/actions.ts:23-38 | the pop/push steps compute `ResolveTarget` |
| Actions.ChildByNumber | src/actions.ts:40 | a found child is one of the children and carries the number; none carries it when nothing is found |
| Actions.Locate | src/actions.ts:38-44 | a found element is a parameter |
| Actions.LocateUnderRoot | src/actions.ts:38-40 | a root parameter is found by the decimal text of its number when no earlier child shares it |
| Actions.ClampRange | src/actions.ts:45-57 | with min <= max a clamped number lies in [min, max], in-range numbers are kept, out-of-range ones become the bound; enumerations are left alone; clamping is idempotent |
| Actions.DispatchCases | src/actions.ts:58-75 | a boolean action sends `value == 'true'`; an integer write happens exactly for a truthy maximum or numeric value; a string write exactly for string action and parameter otherwise; else nothing |
| Actions.SetValue | src/actions.ts:19-79 | nothing is sent without a found parameter, otherwise the clamped, type-tested write |
| Actions.ExpressionWrite | src/actions.ts:105-119 | a write happens exactly for a truthy maximum; with an enumeration the expanded text is sent as `Number` reads it |
| Actions.SetValueExpression | src/actions.ts:81-137 | nothing without a found parameter, otherwise `ExpressionWrite` |
| Actions.StepSaturates | src/actions.ts:165-204 | increment writes min(current + step, max), decrement max(current - step, min); with an enumeration unclamped; without a truthy maximum nothing |
| Actions.SetIncrementDecrement | src/actions.ts:139-222 | nothing without a found parameter, otherwise `StepWrite` |
| Actions.ToggleWrite | src/actions.ts:248-256 | a write happens exactly for a strictly boolean value, and sends its negation |
| Actions.SetToggle | src/actions.ts:224-260 | nothing without a found parameter, otherwise `ToggleWrite` |
| Actions.FirstEndingWith | src/actions.ts:268 | a found entry is in the registry and ends with the suffix; none is found exactly when no label ends with it |
| Actions.SnapLoadOrder | src/actions.ts:262-307 | at most two writes, the slot first and the 1 last; nothing without a Slot entry; only slot writes without a Load entry |
| Actions.TriggerSnapLoad | src/actions.ts:262-307 | the writes are `SnapLoadWrites` |
| Actions.Picked | src/actions.ts:460-463 | the offered entries are at most the registry's and all pass the filter |
| Actions.PickedMembers | src/actions.ts:460-463 | an entry is offered exactly when it is in the registry and passes the filter |
| Actions.ChannelChoices | src/actions.ts:460-463 | a channel dropdown offers exactly the registry entries its filter keeps, and nothing without a registry |
| Actions.InterfaceKeys | src/actions.ts:452-2120 | every interface key starts with "Set" or "Toggle" |
| Actions.LevelFamilies | src/actions.ts:453-899 | Label is always defined; the Gain family exactly off volume interfaces and the Volume family exactly on them |
| Actions.MuteEverywhere | src/actions.ts:1322-1479 | Toggle and Set Mute are defined on every interface, with the toggle and boolean callbacks |
| Actions.MicrophoneActions | src/actions.ts:901-1321 | generator, limiter, link, phantom and high-pass actions exist exactly on Mic interfaces, and Set HPF's value dropdown offers the captured high-pass list |
| Actions.LevelOnOff | src/actions.ts:1097-1321 | among the level actions, a value dropdown offers 'true' and 'false' exactly when the action sets a boolean |
| Actions.SwitchOnOff | src/actions.ts:1322-2118 | among the switching actions, a value dropdown offers 'true' and 'false' exactly when the action sets a boolean, or is Set MON, whose callback toggles |
| Actions.PanOnMixSources | src/actions.ts:923-1096 | the three Pan actions exist exactly on the mix matrix sources |
| Actions.MonoStereo | src/actions.ts:1480-1717 | Mono exists exactly on HP interfaces, Stereo exactly on those that are neither Mic nor HP |
| Actions.SourceChoices | src/actions.ts:1908-1953 | Set Source exists on the routed interfaces and its value dropdown offers the HP, input-processing or output list, by index |
| Actions.AnalogOutputsGetGain | src/actions.ts:478-482 | "AnalogOut" does not contain "Analag", so the analogue outputs get Gain rather than Volume actions |
| Actions.GroupsKeyed | src/actions.ts:365-440 | the interface blocks write only "Set"/"Toggle" keys |
| Actions.GeneralDefinitionsKept | src/actions.ts:314-350 | interface entries written after them never overwrite the two general definitions |
| Actions.GeneralKeysFirst | src/actions.ts:360-363 | the two general keys stay first in the key order |
| Actions.GeneralActionsKept | src/actions.ts:355-442 | every actions dictionary holds the two general actions with their definitions, first in key order |
| Actions.InterfaceKeysPresent | src/actions.ts:365-440 | every key of every enabled interface is in the dictionary |
| Actions.ActionKeysListed | src/actions.ts:355-442 | the returned key order lists each dictionary key exactly once |
| Actions.GetActionsList | src/actions.ts:355-442 | the dictionary and key order are those of writing the general actions and then each enabled block |
| Actions.CopyGroups | src/actions.ts:365-442 | the blocks, run one after the other, write exactly the entries of every enabled block in order |
| Actions.CopyGroup | src/actions.ts:365-368 | one block appends its interface's writes when its area is enabled |
| Strings.ContainsIffOccurs | src/index.ts:206 | the scanning `includes` holds exactly when the substring occurs at some offset |
| Strings.Split | src/actions.ts:26 | `split` gives at least one piece and no piece holds the separator |
| Strings.JoinSplit | src/actions.ts:35-38 | joining the pieces of a split gives the string back |
| Strings.ReplaceFirst | src/index.ts:186 | `replace('#', '')` leaves a text without '#' unchanged and otherwise removes one character, a '#' |
| Strings.ReplaceFirstDropsFirst | src/index.ts:186 | the '#' removed is the first one: the result is the text before it followed by the text after it |
| Strings.LastSegment | src/index.ts:209 | `split('#').pop()` holds no '#' |
| Strings.ParseNumber | src/actions.ts:40 | an integer read from text without a sign is all digits |
| Strings.DecimalRoundTrip | src/index.ts:166 | reading back an integer's decimal text gives the integer |

## Left out

- The connection, status reporting, logging and the configuration fields the core does not read
  (`src/index.ts:60-105`) are not part of this model. Warnings are modelled as "nothing written".
- Directory expansion (`getDirectoryAsync`) and asynchrony: the tree is given already fetched.
  A later change notification is a later call of `HandleChangedValue`.
- The subscription callback and its error handling are modelled only by the subscribed label.
  The walk's `try`/`catch` around registration is not modelled.
- `updateCompanionBits` (`src/index.ts:64-68`) is not part of this model.
- Normalize.Scaled: the decimal text of a non-integral quotient (floating-point division and
  `toString`) is kept abstract as `VScaled`.
- Strings.ParseNumber: `Number` reads only "", an optional '-' with digits, and the two
  infinities. Decimal fractions, exponents, hexadecimal and surrounding white space read as NaN.
- Feedback.LooseEqualsText: a scaled value is taken as different from every expected text,
  because its text is not modelled.
- Actions.SetValueExpression: variable expansion (`parseVariablesInString`) is outside the
  module, so the expanded text is a parameter.
- Parameter values and their minimum and maximum are integers, strings or booleans: a real-typed
  parameter's fractional value, and the comparisons and steps on it, are not modelled.
- Option values and thresholds are integers. Number fields' bounds (±0xffffffff, slots 1–32)
  are enforced by the host's form, not by the module.
- Presentation is not modelled: action and feedback names, descriptions, styles, dropdown
  defaults, the labels of the on/off entries ('on', 'mute', 'stereo', …) and the shortened labels
  shown for mix matrix channels and sources. Channel and source dropdowns are modelled by the
  registry entries they offer; value fields as a number or text field, an on/off dropdown with
  the ids 'true' and 'false', or a dropdown over a captured list whose ids are the indices.
- Actions.GetActionsList: the eleven `if (config.X)` blocks differ only in flag, interface name
  and parent path, so they run as one loop over `Areas`.
- Actions.TriggerSnapLoad: a missing Slot entry makes the source throw, and a parent path that
  cannot be found stops the callback. Both are modelled as no further writes.
- Two as-written quirks are kept:
  - "Set MON" uses the toggle callback.
  - The volume test reads "Analag", so analogue outputs get the Gain actions
    (`Actions.AnalogOutputsGetGain`).
- The feedback key `toggleEqual,` keeps its trailing comma.
- The HP test before the HPF test in choice capture is kept as written
  (`Normalize.HighPassCapturedAsHeadphone`).
