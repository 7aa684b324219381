# Captivate scene and fixture core, in Dafny

This project models the core of captivate, a lighting and visuals controller
that drives DMX fixtures from the beat of the music. It covers five pieces:

- **The beat-driven auto-scene scheduler** (`auto_scene.dfy`). Each scene
  domain (light and visual) keeps a baseline record: the scene it last saw
  active and the beat that scene started at. On every time update the
  scheduler re-arms that record when the active scene was changed from
  outside. It switches to a new auto scene when auto is enabled, a period
  boundary was crossed, and the scene has lived longer than one period. The
  records are a `class UserModified`, and the pair of them is a
  `class Scheduler`. Their methods are proved equal to the pure functions
  `NewSceneDecision` and `DomainStep`, and the properties are proved about
  those functions.
- **The scene-control panel** (`auto_scene_control.dfy`). This is the state
  machine inside the scene panel component, which has these parts:
  - the name and epicness scene categories;
  - the intro sequence that hands over to the next intro scene after the
    number of beats in its table;
  - the keyboard commands: Enter, the digits, `s`, space, `l`, `d`, `v`, `a`,
    Escape and the arrows.

  Each event is one atomic step on a `ControlState` record. A
  `class SceneControl` performs the same steps by updating its fields, and
  each of its methods is proved equal to its step function.
- **Colour conversion** (`dmx_colors.dfy`): the sextant table, the HSL, HSV
  and HSI to RGB conversions, and `getColors`. All of these work over reals.
- **Fixtures and the universe map** (`dmx_fixtures.dfy`). This covers:
  - the four channel kinds;
  - the five built-in fixture types;
  - the test universe;
  - `getUniverseMap`, which fills a 512-slot array in place.
- **Parameter defaults** (`params.ts` as `params.dfy`): the constant parameter
  maps and the list of the thirteen default parameters.

`scenes.dfy` holds the scene records shared by the scheduler and the panel.
`util.dfy` holds `Option` and the JavaScript helpers the code relies on:
`filter`, `includes`, `indexOf` and ASCII `toLowerCase`.

Randomness and helpers whose code is not part of this model are parameters:

- `Math.random()` is a real `rand` in [0,1). A random index is
  `floor(rand * length)`, as in the code.
- `randomElementExcludeCurrent` is a chooser `pick`. Lemmas that need it
  assume only that, given a non-empty list, it returns one of the list's
  elements (`Scenes.PicksMember`).
- `isNewPeriod` is a predicate `newPeriod(last, next, length)`.

## Model

| member | source | states |
|---|---|---|
| Params.KeyInjective | src/shared/params.ts:1-14 | distinct parameter names are stored under distinct keys |
| Params.DefaultParamsList | src/shared/params.ts:62-76 | the list has 13 entries, names every parameter, and has no duplicates |
| Params.InitBaseParams | src/shared/params.ts:18-24 | exactly hue, saturation and brightness, each 0.5 |
| Params.DefaultValue | src/shared/params.ts:27-41 | every default parameter value lies in [0,1] |
| Params.ParamsOfContents | src/shared/params.ts:26-42 | a parameter map built from a list has exactly that list's keys, each holding its default |
| Params.DefaultBaseParams | src/shared/params.ts:26-42 | a value for every default parameter and no other key, each in [0,1] |
| Params.DefaultOutputParams | src/shared/params.ts:44-60 | exactly hue, saturation and brightness, each 0.5 |
| Params.DefaultsExtendInit | src/shared/params.ts:18-60 | the full defaults include the initial keys and agree with them; the output params equal the initial ones |
| Params.InitModulation | src/shared/params.ts:80-82 | the new modulation has no key |
| DmxColors.ColorList | src/shared/dmxColors.ts:8 | five colours, each listed once |
| DmxColors.JsRem2 | src/shared/dmxColors.ts:32 | JavaScript `hp % 2` lies in (-2,2) and is non-negative for non-negative `hp` |
| DmxColors.JsRem2IsFloorMod | src/shared/dmxColors.ts:32 | for `hp >= 0`, the truncating remainder equals `hp - 2*floor(hp/2)` |
| DmxColors.Secondary | src/shared/dmxColors.ts:41 | for `hp >= 0`, the secondary share `1 - abs(hp % 2 - 1)` lies in [0,1] |
| DmxColors.Intermediate | src/shared/dmxColors.ts:12-26 | the sextant table itself; it has no contract of its own. Its properties are lemmas: each row is a permutation of `(C, X, 0)` (IntermediatePermutes), the shifted row spans `[m, C + m]` (SextantExtremes) and sums to `C + X + 3m` (RowSum) |
| DmxColors.IntermediatePermutes | src/shared/dmxColors.ts:12-26 | every sextant row is a permutation of `(C, X, 0)` |
| DmxColors.Hsl2Rgb | src/shared/dmxColors.ts:29-36 | with saturation 0 the colour is the grey `(l, l, l)`; bounds in HslBounds and HslChromaBounds |
| DmxColors.Hsv2Rgb | src/shared/dmxColors.ts:38-45 | with saturation 0 the colour is the grey `(v, v, v)`; bounds in HsvBounds, pure hues in HsvPrimaries, the hue wrap in HueWrapsAround |
| DmxColors.Hsi2Rgb | src/shared/dmxColors.ts:47-55 | requires a non-negative hue (see Left out); with saturation 0 the colour is the grey `(i, i, i)`; the mean of the components is the intensity in HsiMean |
| DmxColors.SextantStartRow | src/shared/dmxColors.ts:12-26 | at the start of each sextant `k`, the row is the k-th primary or secondary colour |
| DmxColors.SextantExtremes | src/shared/dmxColors.ts:12-26 | with `0 <= X <= C`, a shifted row has maximum `C + m` and minimum `m` |
| DmxColors.RowSum | src/shared/dmxColors.ts:12-26 | the components of a shifted row sum to `C + X + 3m` |
| DmxColors.HsvBounds | src/shared/dmxColors.ts:38-45 | for h, s, v in [0,1], the components lie in [0,1], with maximum `v` and minimum `v - v*s` |
| DmxColors.HslBounds | src/shared/dmxColors.ts:29-36 | for h, s, l in [0,1], the components lie in [0,1], and maximum plus minimum is `2l` |
| DmxColors.HslChromaBounds | src/shared/dmxColors.ts:31-34 | the HSL chroma is non-negative and `l +- c/2` stays in [0,1] |
| DmxColors.HsiMean | src/shared/dmxColors.ts:47-55 | the HSI components average to the intensity `i` |
| DmxColors.HsvPrimaries | src/shared/dmxColors.ts:38-45 | `hsv2rgb(k/6, 1, 1)` is red, yellow, green, cyan, blue, magenta for k = 0..5 |
| DmxColors.HueWrapsAround | src/shared/dmxColors.ts:29-45 | hue 1 gives the same colour as hue 0 in HSV and HSL |
| DmxColors.GetColors | src/shared/dmxColors.ts:57-68 | red, green and blue are `hsv2rgb(hue ?? 0, saturation ?? 0, 1)`, white is their minimum, black is `black ?? 0` |
| DmxColors.GetColorsBounds | src/shared/dmxColors.ts:57-68 | for hue and saturation in [0,1], the brightest channel is 1 and white is `1 - saturation`, in [0,1] |
| DmxColors.FullValueBounds | src/shared/dmxColors.ts:58 | at full value the maximum component is 1 and the minimum is `1 - s` |
| DmxFixtures.ChannelVariantsAreOffered | src/engine/dmxFixtures.ts:23-67 | every channel variant's type is one of the offered channel types, and every offered type has a variant |
| DmxFixtures.InitFixtureType | src/engine/dmxFixtures.ts:141-148 | the given id, an empty name, epicness 0, no channels, well formed |
| DmxFixtures.BuiltInTypesConsistent | src/engine/dmxFixtures.ts:77-164 | every listed id maps to a type with that id, no other key is mapped, and every built-in default is a DMX value |
| DmxFixtures.BuiltInChannelCounts | src/engine/dmxFixtures.ts:77-139 | Par has 8 channels, Light String 1, Strobe 3, Derby 7, EL-400 1 |
| DmxFixtures.AscendingEndsBefore | src/engine/dmxFixtures.ts:174-186 | in a universe laid out in ascending order, every fixture's range ends before any later fixture starts |
| DmxFixtures.TestFixtureKnown | src/engine/dmxFixtures.ts:174-186 | each test fixture has a known type, starts at channel 1 or later, ends by channel 512, and ends before the next one starts |
| DmxFixtures.TestUniverseLayout | src/engine/dmxFixtures.ts:174-186 | all test fixtures have known types and lie within 1..512, and their channel ranges are pairwise disjoint |
| DmxFixtures.EmptyUniverseMap | src/engine/dmxFixtures.ts:190-192 | 512 empty slots |
| DmxFixtures.InitUniverseMap | src/engine/dmxFixtures.ts:190-192 | a new array holding 512 empty slots |
| DmxFixtures.Place | src/engine/dmxFixtures.ts:197-199 | one fixture's write: its start slot now holds it and every other slot is unchanged |
| DmxFixtures.UniverseMapOf | src/engine/dmxFixtures.ts:194-202 | the universe map always has 512 slots |
| DmxFixtures.LastIndexAt | src/engine/dmxFixtures.ts:197-199 | the index of the last fixture in list order that starts at a given channel, or -1 when none does |
| DmxFixtures.UniverseMapSlot | src/engine/dmxFixtures.ts:197-199 | slot `i` holds the last fixture with `ch = i + 1`, and is empty when no fixture starts there |
| DmxFixtures.TestUniverseMapMarksStarts | src/engine/dmxFixtures.ts:174-199 | only start channels are marked: slot 0 holds the Derby, and slot 1 (still inside it) is empty |
| DmxFixtures.GetUniverseMap | src/engine/dmxFixtures.ts:194-202 | the loop fills a new 512-slot array in place so that it equals the universe map |
| Util.FilterAppend | src/renderer/scenes/AutoScene.tsx:50-90 | every selector keeps library order: filtering a concatenation concatenates the filtered parts |
| Scenes.CandidatesNear | src/shared/autoScene.ts:35-44 | exactly the library ids, without additions, that have a scene, have auto enabled and are within the tolerance of the level |
| AutoScene.InitBaseline | src/shared/autoScene.ts:14-19 | a new record has beat 0 and the empty scene |
| AutoScene.BeatsPerScene | src/shared/autoScene.ts:91 | the period length in beats, `quantum * period`: never negative for non-negative settings, and with a positive quantum not positive exactly when the period is not |
| AutoScene.Rearm | src/shared/autoScene.ts:92-95 | the record ends on the active scene; it is unchanged when the scene was already recorded, and restarts at the current beat otherwise |
| AutoScene.RearmIdempotent | src/shared/autoScene.ts:92-95 | re-arming again for the same scene changes nothing, whatever the beat |
| AutoScene.NewSceneDecision | src/shared/autoScene.ts:84-105 | a switch happens if and only if auto is enabled, a period boundary of `quantum*period` was crossed, and more than one period has elapsed since the re-armed baseline |
| AutoScene.OverrideAbsorbed | src/shared/autoScene.ts:91-98 | on the update that first sees an outside scene change, with a non-negative period, there is no switch and the record restarts at that beat |
| AutoScene.LightCandidates | src/shared/autoScene.ts:35-44 | exactly the auto-enabled scenes within 0.15 of the auto epicness |
| AutoScene.VisualCandidates | src/shared/autoScene.ts:59-65 | exactly the auto-enabled scenes, with no epicness test |
| AutoScene.VisualCandidatesIgnoreAuto | src/shared/autoScene.ts:59-65 | the visual candidates depend on neither the active scene nor the auto settings |
| AutoScene.LightWithinAutoEnabled | src/shared/autoScene.ts:35-65 | the light candidates are the visual-style candidates that also pass the epicness test |
| AutoScene.DomainStep | src/shared/autoScene.ts:45-57 | a scene is emitted if and only if the decision switches and there is a candidate; then the record holds the emitted scene with its beat untouched, and otherwise it is just re-armed |
| AutoScene.EmittedIsCandidate | src/shared/autoScene.ts:54-56 | an emitted scene is one of the candidates |
| AutoScene.OwnSwitchKeepsBaseline | src/shared/autoScene.ts:54-56 | once the emitted scene becomes active, the next update does not re-arm the record |
| AutoScene.UserModified.constructor | src/shared/autoScene.ts:14-19 | a new record holds the initial baseline |
| AutoScene.UserModified.IsNewScene | src/shared/autoScene.ts:84-105 | updates the record in place to the re-armed baseline and answers the decision |
| AutoScene.Scheduler.constructor | src/shared/autoScene.ts:21-24 | two distinct new records, one per domain, both at the initial baseline |
| AutoScene.Scheduler.HandleAutoScene | src/shared/autoScene.ts:26-82 | each domain's record and emitted scene are that domain's step, computed from its own domain and record alone |
| AutoSceneControl.IntroBeatsAt | src/renderer/scenes/AutoScene.tsx:20-29 | entries 0 to 6 are finite and at least 1 beat; entry 7 and any index past the table are unbounded |
| AutoSceneControl.InitControl | src/renderer/scenes/AutoScene.tsx:31-47 | no scene to go back to, no special scene, and intro tracking at beat 0 |
| AutoSceneControl.CategoryScenes | src/renderer/scenes/AutoScene.tsx:50-83 | exactly the library ids (library order: Util.FilterAppend) whose scene's name (and, for the close categories, epicness) puts them in the category |
| AutoSceneControl.IntroScenes | src/renderer/scenes/AutoScene.tsx:85-90 | exactly the ids whose scene name contains INTRO |
| AutoSceneControl.OffScene | src/renderer/scenes/AutoScene.tsx:119-122 | the first id whose scene is named OFF, or none when no scene has that name |
| AutoSceneControl.RandomIndex | src/renderer/scenes/AutoScene.tsx:243 | `floor(rand * n)` is a valid index into a list of `n` |
| AutoSceneControl.IntroTick | src/renderer/scenes/AutoScene.tsx:92-117 | outside the intro, tracking becomes -1 and nothing else changes; otherwise the only possible change is to move to the next intro scene, restarting tracking at this beat, once the scene has outlasted its table entry |
| AutoSceneControl.IntroTickAdvances | src/renderer/scenes/AutoScene.tsx:99-115 | a tracked intro scene that has outlasted its entry and has a successor hands over to that successor |
| AutoSceneControl.NoAdvanceFromLastEntry | src/renderer/scenes/AutoScene.tsx:99-107 | from intro index 7 or beyond the scene never changes on its own |
| AutoSceneControl.IntroTicksMoveForward | src/renderer/scenes/AutoScene.tsx:92-117 | over any run of beats, with distinct intro ids, the intro index never decreases, and once at or before index 7 it never passes 7 |
| AutoSceneControl.NewSceneFromEpicness | src/renderer/scenes/AutoScene.tsx:147-183 | at the current level, goes back to the remembered scene and clears it; otherwise it forgets the special scene and picks among the candidates within 0.1 of the level, keeping the active scene when there are none |
| AutoSceneControl.NewSceneIsNearLevel | src/renderer/scenes/AutoScene.tsx:164-182 | a scene chosen by epicness is auto-enabled and within 0.1 of the level |
| AutoSceneControl.DigitLevel | src/renderer/scenes/AutoScene.tsx:212-221 | '0' selects level 1.0 and 'k' selects (k-1)/10, always in [0,1] |
| AutoSceneControl.EnterTarget | src/renderer/scenes/AutoScene.tsx:191-195 | the next intro scene, or the first one when the active scene is the last intro scene, is not an intro scene, or has an empty successor |
| AutoSceneControl.SpecialKey | src/renderer/scenes/AutoScene.tsx:228-254 | always ends on a category member and remembers the scene it left; it brings back the remembered special scene when that is not active; otherwise it picks at the random index, remembers the pick as the special scene, and turns auto off |
| AutoSceneControl.KeyDown | src/renderer/scenes/AutoScene.tsx:185-210 | a repeat changes nothing; Enter on a non-empty intro activates the target intro scene, turns auto off and starts tracking; any other key stops intro tracking; a period of at least 1 stays at least 1 |
| AutoSceneControl.EnterKey | src/renderer/scenes/AutoScene.tsx:191-207 | the target intro scene becomes active, auto is off, tracking starts at this beat, and nothing else changes |
| AutoSceneControl.EnterWrapsFromLast | src/renderer/scenes/AutoScene.tsx:191-195 | Enter on the last intro scene wraps round to the first |
| AutoSceneControl.CommandKey | src/renderer/scenes/AutoScene.tsx:210-399 | the command keys keep intro tracking as it is, and only the arrows change the period |
| AutoSceneControl.DigitKey | src/renderer/scenes/AutoScene.tsx:212-224 | sets the epicness to the digit's level and enables auto; the scene is chosen as for that level against the old epicness |
| AutoSceneControl.DjKey | src/renderer/scenes/AutoScene.tsx:290-305 | with DJ scenes available, goes to one, remembers the scene it left, turns auto off and keeps the special scene; otherwise nothing changes |
| AutoSceneControl.AutoKey | src/renderer/scenes/AutoScene.tsx:369-377 | toggles auto; turning it on chooses a scene at the current epicness |
| AutoSceneControl.EscapeKey | src/renderer/scenes/AutoScene.tsx:379-387 | with an OFF scene, activates it and turns auto off; otherwise nothing changes |
| AutoSceneControl.PeriodKey | src/renderer/scenes/AutoScene.tsx:389-399 | up doubles the period; down halves it but never below 1; nothing else changes |
| AutoSceneControl.KeyUp | src/renderer/scenes/AutoScene.tsx:402-409 | releasing space on a STROBE or close-strobe scene turns auto on and runs the epicness choice at the current epicness; any other release changes nothing; the epicness, period and tracking never change |
| AutoSceneControl.SpaceReleaseReturns | src/renderer/scenes/AutoScene.tsx:402-409 | releasing space on a close strobe scene turns auto on and goes back to the remembered scene |
| AutoSceneControl.SceneControl.constructor | src/renderer/scenes/AutoScene.tsx:31-47 | the object starts in the initial control state |
| AutoSceneControl.SceneControl.OnBeat | src/renderer/scenes/AutoScene.tsx:92-117 | updates the fields in place exactly as the intro tick |
| AutoSceneControl.SceneControl.NewSceneFrom | src/renderer/scenes/AutoScene.tsx:147-183 | updates the fields in place exactly as the epicness choice |
| AutoSceneControl.SceneControl.PressSpecial | src/renderer/scenes/AutoScene.tsx:228-254 | updates the fields in place exactly as the special-key step |
| AutoSceneControl.SceneControl.OnKeyDown | src/renderer/scenes/AutoScene.tsx:185-400 | updates the fields in place exactly as the key-down step |
| AutoSceneControl.SceneControl.OnEnter | src/renderer/scenes/AutoScene.tsx:191-207 | updates the fields in place exactly as the Enter step |
| AutoSceneControl.SceneControl.OnCommandKey | src/renderer/scenes/AutoScene.tsx:210-399 | updates the fields in place exactly as the command-key step |
| AutoSceneControl.SceneControl.OnDigit | src/renderer/scenes/AutoScene.tsx:212-224 | updates the fields in place exactly as the digit step |
| AutoSceneControl.SceneControl.OnDj | src/renderer/scenes/AutoScene.tsx:290-305 | updates the fields in place exactly as the DJ step |
| AutoSceneControl.SceneControl.OnAuto | src/renderer/scenes/AutoScene.tsx:369-377 | updates the fields in place exactly as the auto toggle |
| AutoSceneControl.SceneControl.OnEscape | src/renderer/scenes/AutoScene.tsx:379-387 | updates the fields in place exactly as the Escape step |
| AutoSceneControl.SceneControl.OnArrow | src/renderer/scenes/AutoScene.tsx:389-399 | updates the fields in place exactly as the period step |
| AutoSceneControl.SceneControl.OnKeyUp | src/renderer/scenes/AutoScene.tsx:402-409 | updates the fields in place exactly as the key-up step |

## Left out

- The tempo command sent on Enter (`send_user_command`), the `console.log` of digits, and the registration of the listeners are left out. These are I/O.
- React's batched, asynchronous `setState` is not modelled. Each event is one atomic step that reads the state as it was before the event, as the handler's closure does.
- Key events carry a `KeyValue`, a `Key` in its one canonical form: a one-character key is a `Char`, and no other key name starts with a digit or a space. The `parseInt` of a longer name such as "5x", which the source would read as a digit, is therefore not modelled.
- The `keyBindingsEnabled` checkbox and the rest of the panel's markup are left out. `KeyDown` and `KeyUp` describe events delivered while key bindings are on; with them off, no listener is installed and nothing changes.
- Rounding of beats to two decimals (`toFixed(2)`) and IEEE floating-point effects are not modelled. Beats, epicness, periods and colours are exact reals.
- `parseInt` is modelled only on what keys produce. A one-character digit key is a number, and every other key is not.
- The body of `randomElementExcludeCurrent` is not part of this model. In particular, its avoidance of the current scene is not modelled; it is a parameter.
- The body of `isNewPeriod` is not part of this model; it is a parameter.
- AutoScene.DomainStep: when a switch is due but the domain has no candidate, the code still calls the chooser on an empty list and records its unknown result. The model emits nothing in that case and keeps the re-armed baseline.
- DmxColors.Hsi2Rgb: requires a non-negative hue. For some negative hues (h = -1/6) the code divides by zero.
- DmxColors.HsiMean: no [0,1] bound is stated for `hsi2rgb`, because none holds (`hsi2rgb(0, 1, 1)` has a red component of 3).
- The scene selectors of the panel (`AutoScene.tsx`) read `byId[id].name` for every id and throw a TypeError on an id that has no scene. The model does not have that error path. The key handlers (`KeyDown`, `KeyUp`) require `Indexed(lib)`, so every id has a scene there. The selectors themselves, and the intro step that uses them, skip an id without a scene instead of failing.
- `toLowerCase` is modelled for ASCII letters only.
- DmxFixtures.GetUniverseMap: only fixtures with `1 <= ch <= 512` are placed. In the code, other channels grow the array or add a property, and fractional channels are not modelled.
- `nanoid` id generation is a parameter of `InitFixtureType`. The fixture window type is not part of this model; it is reduced to the optional x and y spans the test universe uses.
- The widget files (trigger density, the 3D cube sphere preview, the active-effect view, the checkbox) and the connection descriptors are not part of this model. They hold no scene, colour or fixture logic.
