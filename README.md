# vector-game, modelled in Dafny

vector-game is a Bukkit server plugin. A player who holds the configured
"vector item" can select the nearest entity that their line of sight passes
near. A right click (or a left click, in both-hands mode) then throws that
entity toward the point they are looking at. While an entity is selected, a
trail of particles runs from it toward the point the player is looking at. The `/vector` command does three
things:
- it switches the feature on and off;
- it prints help;
- it reads and rewrites `config.yml` line by line: `/vector config <key>`
  shows a key's comment and current value, and `/vector config <key> <value>`
  writes a new one.

A timer reloads six settings whenever the file's timestamp changes.

The model covers two files:
- the plugin object in `VectorPlugin.kt`: its command surface, status
  toggle, selection registry, ray-trace scan, impulse step, particle count,
  reload timer and interact handler;
- the separate executor in `VectorCommand.kt`.

The two files share much of their command code word for word: dispatch,
`configCommand`, `getCurrentConfig`, tab completion, `resetRegexMatch` and
`filter`. That code is defined once, in module `Commands`. The table cites
the `VectorPlugin.kt` lines for it; the same code sits at
`VectorCommand.kt:45-65` and `VectorCommand.kt:87-114`, and at
`VectorCommand.kt:141-146`. The two `setConfig` loops differ, so each has its
own model (`VectorPlugin.SetConfig`, `VectorCommand.SetConfig`), and
`VectorCommand.InvalidBooleanDiffers` and `VectorCommand.WrittenLinesAgree`
relate them.

Files:
- `host.dfy` (`Host`): the server's vocabulary, namely entity ids, material
  names, scheduled tasks and click actions.
- `text.dfy` (`Text`): substring and prefix tests and case folding.
- `commands.dfy` (`Commands`): the shared command surface, the
  `getCurrentConfig` loop, and the line rewrite with its read-back.
- `plugin.dfy` (`VectorPlugin`): `setConfig` as the plugin writes it, the
  reload step, the ray-trace scan, and class `Plugin`, whose fields are the
  plugin's mutable state.
- `command.dfy` (`VectorCommand`): `setConfig` with its echo and early
  return, and class `Executor`.

The host stays outside the model:
- Server messages, broadcasts, scheduled tasks and registered listeners are
  fields that the methods append to or reset.
- The file is a field holding its lines.
- Permission checks are boolean parameters.
- The config's keys and values are parameters.
- `String.toDouble()` and the rendering of a double are the parameters
  `parse` and `render`.
- Geometry is a set of parameters: whether a ray hits an entity's expanded
  box, eye-to-entity distances, and trace lengths.
- Material lookup is membership in the catalog's list of names, the same list
  that tab completion offers.

## Model

| member | source | states |
|---|---|---|
| Commands.Dispatch | src/main/kotlin/com/github/patrick/vector/VectorPlugin.kt:231-238 | Each route holds exactly when the code takes it: `help` (any case) in the first argument wins, then a `conf`/`set` match with the config permission, otherwise the first argument is reported; no arguments toggles only with the toggle permission, and does nothing without it |
| Commands.ResetWordSelectsConfig | src/main/kotlin/com/github/patrick/vector/VectorPlugin.kt:71 | Any argument containing `reset` (any case) matches `(?i)conf\|set`, because `reset` contains `set` |
| Commands.ConfigRoute | src/main/kotlin/com/github/patrick/vector/VectorPlugin.kt:106-120 | Routing by argument count. One argument asks for key and value. Two arguments reset exactly when the key contains `reset` (any case), else show a known key. Three arguments set a known key. An unknown key is reported as `Unrecognized key: '<k>'` with two arguments and as `Unrecognized Unrecognized key: '<k>'` with three, the doubled prefix being the code's own. Any other count reports the arguments after the third as a list |
| Commands.KindsAgree | src/main/kotlin/com/github/patrick/vector/VectorPlugin.kt:149-155 | For keys without capitals that do not contain both `item` and `double`, `setConfig`'s case-sensitive, double-first key test and tab completion's case-insensitive, item-first test give the same kind |
| Commands.KindsDisagree | src/main/kotlin/com/github/patrick/vector/VectorPlugin.kt:244-248 | For every key containing both words, completion offers materials while `setConfig` treats the key as a number |
| Commands.Filter | src/main/kotlin/com/github/patrick/vector/VectorPlugin.kt:73 | The result holds exactly the candidates that start with the typed text, ignoring case, and is no longer than the input |
| Commands.FilterAppend | src/main/kotlin/com/github/patrick/vector/VectorPlugin.kt:73 | Filtering distributes over concatenation, so the candidates' order is kept |
| Commands.FilterNothingTyped | src/main/kotlin/com/github/patrick/vector/VectorPlugin.kt:73 | With nothing typed, every candidate is offered, in order |
| Commands.TabComplete | src/main/kotlin/com/github/patrick/vector/VectorPlugin.kt:240-251 | The exact, ordered suggestion list per position: nothing for 0 or more than 3 arguments; the filtered sub-commands at position 1; the filtered config keys at position 2 after a config word, else nothing; at position 3, after a config word and a known key, the filtered material names for item keys, the filtered `true`/`false` for keys naming neither item nor double, nothing for double keys |
| Commands.TabCompleteSound | src/main/kotlin/com/github/patrick/vector/VectorPlugin.kt:240-251 | Every suggestion starts with the word being typed and comes from the list its position allows: a sub-command, a config key after a config word, a material or boolean word after a config word and a known key |
| Commands.TabCompletesKeys | src/main/kotlin/com/github/patrick/vector/VectorPlugin.kt:243 | At the key position, every config key starting with the typed text is offered |
| Commands.Matching | src/main/kotlin/com/github/patrick/vector/VectorPlugin.kt:134-135 | The indices of the lines containing the key: all of them, only them, in ascending order |
| Commands.ShowCurrentConfig | src/main/kotlin/com/github/patrick/vector/VectorPlugin.kt:129-142 | One report per matching line, in file order, each made of that line's three preceding comment lines without their first two characters, then the key's current value. The command aborts at the first matching line lacking that context. Without an abort, the number of reports equals the number of matching lines |
| Commands.ShowsCurrentDeterministic | src/main/kotlin/com/github/patrick/vector/VectorPlugin.kt:129-142 | The description of the reports and the abort fixes both uniquely |
| Commands.Rewritten | src/main/kotlin/com/github/patrick/vector/VectorPlugin.kt:148-153 | Same length as the file; each line containing the key (comments included) is replaced, the others kept |
| Commands.RewriteIdempotent | src/main/kotlin/com/github/patrick/vector/VectorPlugin.kt:149-155 | Writing the same `key: value` twice gives the same file as writing it once |
| Commands.RewriteWithoutMatch | src/main/kotlin/com/github/patrick/vector/VectorPlugin.kt:148-159 | When no line mentions the key, the file is written back unchanged |
| Commands.WriteThenReadBack | src/main/kotlin/com/github/patrick/vector/VectorPlugin.kt:144-159 | Round trip: after a write to a file that mentions the key, reading the key back gives the written value |
| VectorPlugin.SetConfig | src/main/kotlin/com/github/patrick/vector/VectorPlugin.kt:144-166 | The loop's messages and written lines equal `SetConfigResult`. Double keys: an unparsable value (parsed only on a matching line) sends one warning and writes nothing. Item keys: the upper-cased name is written, with one warning per matching line for an unknown material. Other keys: `true`/`false` is written, otherwise one warning per matching line and the file is written back unchanged |
| VectorPlugin.SetConfigRoundTrip | src/main/kotlin/com/github/patrick/vector/VectorPlugin.kt:144-166 | Whenever the file mentions the key and the value is accepted, the key reads back as the value stored (rendered number, upper-cased item name, boolean word). An unparsable number writes nothing |
| VectorPlugin.SetConfigKeepsOtherLines | src/main/kotlin/com/github/patrick/vector/VectorPlugin.kt:148-149 | Lines not mentioning the key are written back as they were |
| VectorPlugin.Reload | src/main/kotlin/com/github/patrick/vector/VectorPlugin.kt:218-227 | All five other settings take the values read. The item takes the read name when it is a material, else keeps the previous one, so the item always stays a material |
| VectorPlugin.ReloadAsWrittenKeepsStale | src/main/kotlin/com/github/patrick/vector/VectorPlugin.kt:218-227 | With an unknown item name, the step as written leaves a changed setting at its old value |
| VectorPlugin.ReloadAgreesOnKnownItem | src/main/kotlin/com/github/patrick/vector/VectorPlugin.kt:221 | With a known item name, the intended step and the step as written both publish exactly what was read |
| VectorPlugin.Nearest | src/main/kotlin/com/github/patrick/vector/VectorPlugin.kt:196-209 | The scan finds an entity exactly when some entity other than the player is hit. The found entity is such a candidate. With positive distances it is the first candidate at the least distance. A found candidate at distance 0 is the last candidate, because 0 means "none yet" |
| VectorPlugin.FirstNearestUnique | src/main/kotlin/com/github/patrick/vector/VectorPlugin.kt:199-209 | The first nearest candidate is unique |
| VectorPlugin.ToInt | src/main/kotlin/com/github/patrick/vector/VectorPlugin.kt:173 | For non-negative input: the largest integer not above it, saturated at the `Int` maximum |
| VectorPlugin.InteractSteps | src/main/kotlin/com/github/patrick/vector/VectorPlugin.kt:253-266 | The full decision table: the event is handled (and cancelled) exactly when the held item is the vector item and the player may use it. Then a right click impulses, falling back to a ray trace without a selection, or only ray-traces in both-hands mode. A left click impulses only in both-hands mode. A physical action does nothing |
| VectorPlugin.Plugin.constructor | src/main/kotlin/com/github/patrick/vector/VectorPlugin.kt:57-66 | The initial state: off, an empty registry, no timestamp, item `AIR`, flags false, numbers 0 |
| VectorPlugin.Plugin.OnEnable | src/main/kotlin/com/github/patrick/vector/VectorPlugin.kt:213-215 | The reload timer is scheduled |
| VectorPlugin.Plugin.ReloadTick | src/main/kotlin/com/github/patrick/vector/VectorPlugin.kt:215-228 | Runs only while the reload timer is scheduled. The timestamp is recorded. An unchanged timestamp leaves the settings alone; a changed one republishes them through `Reload` |
| VectorPlugin.Plugin.StatusOn | src/main/kotlin/com/github/patrick/vector/VectorPlugin.kt:81-86 | The feature is on, one more listener is registered, the particle task is appended and "Vector On" is broadcast; whether the reload timer is scheduled is unchanged, so once `StatusOff` has cancelled it the timer stays off |
| VectorPlugin.Plugin.StatusOff | src/main/kotlin/com/github/patrick/vector/VectorPlugin.kt:88-93 | The feature is off, no listener is left, every task is cancelled (the reload timer included) and "Vector Off" is broadcast |
| VectorPlugin.Plugin.OnCommand | src/main/kotlin/com/github/patrick/vector/VectorPlugin.kt:231-238 | Per route: the help text; the unrecognized-argument report; a toggle through `StatusOn`/`StatusOff`; nothing; or the config action. The config action sends its message, restores the shipped file, reports through `ShowsCurrent` (an abort makes the command fail), or applies `SetConfigResult` to the file. State the route does not touch is unchanged |
| VectorPlugin.Plugin.SetTargetVelocity | src/main/kotlin/com/github/patrick/vector/VectorPlugin.kt:182-191 | Without a selection: returns null and changes nothing. With one: the selected entity is impulsed, the entry is dropped when asked, and `true` is returned |
| VectorPlugin.Plugin.NewRayTrace | src/main/kotlin/com/github/patrick/vector/VectorPlugin.kt:193-211 | The registry is unchanged without a candidate. Otherwise only the player's entry changes, to a hit candidate that is the first nearest when distances are positive |
| VectorPlugin.Plugin.NewParticle | src/main/kotlin/com/github/patrick/vector/VectorPlugin.kt:168-180 | Runs only while the particle task is scheduled, for an entry of the registry. An invalid player or entity drops the entry and draws nothing. Otherwise the entry is kept and `toInt(distance * 5)` particles are emitted |
| VectorPlugin.Plugin.OnInteract | src/main/kotlin/com/github/patrick/vector/VectorPlugin.kt:253-266 | Runs only while the handler is registered. Cancels exactly when the vector item is held with permission, and performs the impulse or ray trace that `InteractSteps` names, with its effect on registry and impulses |
| VectorCommand.SetConfig | src/main/kotlin/com/github/patrick/vector/VectorCommand.kt:116-139 | The loop's messages and written lines equal this file's `SetConfigResult`. Every line is echoed after it is processed, after the item warning where there is one. An unparsable number or an invalid boolean at the first matching line sends the lines before it and the warning, and writes nothing |
| VectorCommand.EchoWithoutWarnings | src/main/kotlin/com/github/patrick/vector/VectorCommand.kt:120-131 | Without warnings, the echo is exactly the rewritten file |
| VectorCommand.EchoShowsWrittenFile | src/main/kotlin/com/github/patrick/vector/VectorCommand.kt:116-139 | Whenever the value is accepted, the sender sees exactly the lines that are written |
| VectorCommand.StopsAtFirstMatch | src/main/kotlin/com/github/patrick/vector/VectorCommand.kt:128 | The early return happens at the first matching line, and the outcome is that line's prefix plus the warning, with no write |
| VectorCommand.InvalidBooleanDiffers | src/main/kotlin/com/github/patrick/vector/VectorCommand.kt:127-128 | For an invalid boolean on a mentioned key, the plugin warns once per match and rewrites the file unchanged, while the executor warns and writes nothing |
| VectorCommand.WrittenLinesAgree | src/main/kotlin/com/github/patrick/vector/VectorCommand.kt:116-139 | Whenever the executor writes, the plugin's `setConfig` writes the same lines |
| VectorCommand.Executor.constructor | src/main/kotlin/com/github/patrick/vector/VectorCommand.kt:38-43 | A new executor is off and starts from the given tasks, listeners and file |
| VectorCommand.Executor.StatusOn | src/main/kotlin/com/github/patrick/vector/VectorCommand.kt:67-72 | The feature is on, a listener is registered, the particle task is appended and "Vector On" is broadcast |
| VectorCommand.Executor.StatusOff | src/main/kotlin/com/github/patrick/vector/VectorCommand.kt:74-79 | The feature is off, the executor's listener count and task list are emptied, and "Vector Off" is broadcast |
| VectorCommand.Executor.OnCommand | src/main/kotlin/com/github/patrick/vector/VectorCommand.kt:45-52 | Same routes as the plugin's `onCommand`, with this file's help text and this file's `setConfig` |
| Text.Upper | src/main/kotlin/com/github/patrick/vector/VectorPlugin.kt:152-153 | Same length, no small letter left, and each character equals the input's when case is ignored |
| Text.UpperIdempotent | src/main/kotlin/com/github/patrick/vector/VectorPlugin.kt:152-153 | Upper-casing an upper-cased name changes nothing |

## Left out

- File I/O is left out. Reading and writing `config.yml`, the `IOException` paths (which only log), deleting the file, and `saveDefaultConfig` become the `file` field and the shipped `defaults`.
- The config library is left out. `getKeys()`, `config.get(key)`, `reloadConfig()` and the typed getters become parameters. `ReadBack` reads a `key: value` line directly and does not parse YAML.
- `String.toDouble()` and `Double.toString()` are the parameters `parse` and `render`. Their exact formats are not modelled.
- `Material.getMaterial` is membership in the list of material names that completion offers. The catalog is a parameter.
- Case folding covers the ASCII letters only.
- `getTarget`, the velocity formula (`maxVelocity / velocityModifier`), bounding boxes and ray casting are left out, as are particle positions and colours. They are floating-point geometry of the host. Ray hits, distances and trace lengths are parameters, and an impulse is recorded as the entity it was applied to.
- VectorPlugin.Plugin.NewParticle: models one registry entry. The timer's pass over the whole `HashMap` is not modelled: its iteration order, and the `ConcurrentModificationException` that removing an entry during `forEach` can raise, are outside the model.
- VectorPlugin.ToInt: its contract states only the non-negative inputs. Distances are never negative, so those are the only inputs that occur.
- VectorCommand.Executor.StatusOff: the executor's tasks, listeners and file are its own copies, not linked to a `Plugin` object. In the code, `cancelTasks` and `unregisterAll` act on the plugin itself, so they also cancel the plugin's reload timer; the model does not capture that shared state.
- `VectorCommand.kt` captures the plugin's `config` object once, when the executor is built, while the plugin reads its `config` afresh each time. The two files' `getKeys()` and `config.get(...)` may therefore see different configurations; the model passes keys and current values in as parameters and does not capture which object they come from.
- `VectorParticleTask.kt` and `VectorEventListener` are not part of this model. `VectorCommand.statusOn` schedules and registers them, and the model records only that.
- `Nearest` uses the world's entity list as given; the order in which the server lists entities is a parameter.
- `statusOff` cancels every task of the plugin, the reload timer included, and `statusOn` schedules only the particle task again. The model follows this code. The registry is not cleared when the feature is switched off; the code never clears it.
- VectorPlugin.Plugin.ReloadTick: uses the corrected `Reload` step. The step as written is `ReloadAsWritten` (see Findings).

## Findings

| source | as written | input that shows it | evidently intended | confidence | as-written member | corrected member |
|---|---|---|---|---|---|---|
| src/main/kotlin/com/github/patrick/vector/VectorPlugin.kt:218-226 | The reload timer records the new timestamp before it assigns the nullable result of `getMaterial` to the non-null `vectorItem`. For an unknown name, Kotlin's null check throws there, and none of the six settings is assigned. The recorded timestamp then stops later ticks from retrying. | A `config.yml` edit that sets `vector-item: NOT_A_MATERIAL` and flips `use-both-hands` in the same save. | All settings are republished together. An unknown item name keeps the previous item. | medium, not executed | VectorPlugin.ReloadAsWrittenKeepsStale | VectorPlugin.Reload |
