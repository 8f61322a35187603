/**
 * `VectorPlugin.kt`: the plugin object. It owns the feature status, the
 * scheduler's tasks, the player-to-entity selection registry and the six
 * hot-reloaded settings, and it runs the command surface with its own
 * `setConfig`.
 *
 * Geometry stays with the host: whether a ray hits an entity's expanded
 * box, the distance from the eye to an entity, and the length of a
 * particle trace are parameters.
 */
module VectorPlugin {
  import opened Host
  import opened Text
  import opened Commands

  // ---------------------------------------------------------------- setConfig

  /**
   * What `setConfig` in this file does with the lines of `config.yml`:
   * a `double` key rewrites matching lines to the parsed number, and an unparsable value
   * aborts before the write (the parse only runs on a matching line); an `item` key writes
   * the upper-cased value and warns once per matching line when it names no material;
   * any other key writes `true` or `false` and otherwise warns per matching line but still
   * writes the unchanged lines back.
   */
  function SetConfigResult(file: seq<string>, key: string, value: string,
                           parse: string -> Option<real>, render: real -> string,
                           materials: seq<Material>): SetOutcome
  {
    match SetKind(key)
    case DoubleKey =>
      if parse(value).Some? then SetOutcome([], Some(Rewritten(file, key, Entry(key, render(parse(value).value)))))
      else if MatchCount(file, key) > 0 then SetOutcome([Unrecognized("value", value)], None)
      else SetOutcome([], Some(file))
    case ItemKey =>
      SetOutcome(if Upper(value) in materials then [] else Repeat(Unrecognized("key", value), MatchCount(file, key)),
                 Some(Rewritten(file, key, Entry(key, Upper(value)))))
    case BooleanKey =>
      if IsBooleanWord(value) then SetOutcome([], Some(Rewritten(file, key, Entry(key, value))))
      else SetOutcome(Repeat(Unrecognized("value", value), MatchCount(file, key)), Some(file))
  }

  /** The warning each line that mentions the key draws, if any. */
  function LineWarning(key: string, value: string, materials: seq<Material>): Option<string> {
    match SetKind(key)
    case DoubleKey => None
    case ItemKey => if Upper(value) in materials then None else Some(Unrecognized("key", value))
    case BooleanKey => if IsBooleanWord(value) then None else Some(Unrecognized("value", value))
  }

  /** The outcome is an aborted pass, or a full one that rewrites as `Becomes` says and warns per match. */
  lemma SetConfigResultCases(file: seq<string>, key: string, value: string,
                             parse: string -> Option<real>, render: real -> string, materials: seq<Material>)
    ensures var b := Becomes(key, value, parse, render);
      var w := LineWarning(key, value, materials);
      SetConfigResult(file, key, value, parse, render, materials)
      == if SetKind(key) == DoubleKey && parse(value).None? && MatchCount(file, key) > 0
         then SetOutcome([Unrecognized("value", value)], None)
         else SetOutcome(if w.Some? then Repeat(w.value, MatchCount(file, key)) else [],
                         Some(if b.Some? then Rewritten(file, key, b.value) else file))
  {
  }

  /** `setConfig`: the loop over the file's lines, overwriting matches in place. */
  method SetConfig(file: seq<string>, key: string, value: string,
                   parse: string -> Option<real>, render: real -> string, materials: seq<Material>)
    returns (sent: seq<string>, written: Option<seq<string>>)
    ensures SetOutcome(sent, written) == SetConfigResult(file, key, value, parse, render, materials)
  {
    // what a matching line becomes, and the warning each matching line draws
    ghost var becomes := Becomes(key, value, parse, render);
    ghost var warning := LineWarning(key, value, materials);

    var lines := file;
    sent := [];
    for i := 0 to |lines|
      invariant |lines| == |file|
      invariant forall j :: i <= j < |file| ==> lines[j] == file[j]
      invariant forall j :: 0 <= j < i ==> lines[j] == Target(file[j], key, becomes)
      invariant sent == if warning.Some? then Repeat(warning.value, |Matching(file, key, i)|) else []
      invariant SetKind(key) == DoubleKey && parse(value).None? ==> |Matching(file, key, i)| == 0
    {
      ghost var before := sent;
      if Contains(lines[i], key) {
        match SetKind(key) {
          case DoubleKey =>
            var parsed := parse(value);
            if parsed.None? {
              // NumberFormatException: caught, reported, nothing written
              MatchingPrefix(file, key, i + 1, |file|);
              sent, written := [Unrecognized("value", value)], None;
              SetConfigResultCases(file, key, value, parse, render, materials);
              return;
            }
            lines := lines[i := Entry(key, render(parsed.value))];
          case ItemKey =>
            if Upper(value) !in materials {
              sent := sent + [Unrecognized("key", value)];
            }
            lines := lines[i := Entry(key, Upper(value))];
          case BooleanKey =>
            if IsBooleanWord(value) {
              lines := lines[i := Entry(key, value)];
            } else {
              sent := sent + [Unrecognized("value", value)];
            }
        }
      }
      assert lines[i] == Target(file[i], key, becomes);
      WarningStep(file, key, warning, i, before, sent);
    }
    written := Some(lines);
    SetConfigResultCases(file, key, value, parse, render, materials);
    FinishedPass(file, key, becomes, lines);
  }

  /** One more line keeps the warnings at one per match so far. */
  lemma WarningStep(file: seq<string>, key: string, warning: Option<string>, i: nat,
                    before: seq<string>, after: seq<string>)
    requires i < |file|
    requires before == if warning.Some? then Repeat(warning.value, |Matching(file, key, i)|) else []
    requires after == if Contains(file[i], key) && warning.Some? then before + [warning.value] else before
    ensures after == if warning.Some? then Repeat(warning.value, |Matching(file, key, i + 1)|) else []
  {
  }

  /** A pass that ran to the end leaves the file as `Target` says, line by line. */
  lemma FinishedPass(file: seq<string>, key: string, becomes: Option<string>, lines: seq<string>)
    requires |lines| == |file|
    requires forall j :: 0 <= j < |file| ==> lines[j] == Target(file[j], key, becomes)
    ensures lines == if becomes.Some? then Rewritten(file, key, becomes.value) else file
  {
    if becomes.Some? {
      RewrittenPointwise(file, key, becomes.value, lines);
    } else {
      assert lines == file;
    }
  }

  /** A successful write followed by a read of the file gives back the value as stored. */
  lemma SetConfigRoundTrip(file: seq<string>, key: string, value: string,
                           parse: string -> Option<real>, render: real -> string, materials: seq<Material>)
    requires MatchCount(file, key) > 0
    ensures var o := SetConfigResult(file, key, value, parse, render, materials);
      match SetKind(key)
      case DoubleKey =>
        (parse(value).Some? ==> o.written.Some? && ReadBack(o.written.value, key) == Some(render(parse(value).value)))
        && (parse(value).None? ==> o.written.None?)
      case ItemKey => o.written.Some? && ReadBack(o.written.value, key) == Some(Upper(value))
      case BooleanKey => IsBooleanWord(value) ==> o.written.Some? && ReadBack(o.written.value, key) == Some(value)
  {
    match SetKind(key)
    case DoubleKey =>
      if parse(value).Some? { WriteThenReadBack(file, key, render(parse(value).value)); }
    case ItemKey =>
      WriteThenReadBack(file, key, Upper(value));
    case BooleanKey =>
      if IsBooleanWord(value) { WriteThenReadBack(file, key, value); }
  }

  /** Lines that do not mention the key are never altered, whatever the value. */
  lemma SetConfigKeepsOtherLines(file: seq<string>, key: string, value: string,
                                 parse: string -> Option<real>, render: real -> string,
                                 materials: seq<Material>, i: nat)
    requires i < |file| && !Contains(file[i], key)
    ensures var o := SetConfigResult(file, key, value, parse, render, materials);
      o.written.Some? ==> |o.written.value| == |file| && o.written.value[i] == file[i]
  {
  }

  // ------------------------------------------------------------ hot reload

  /** The six settings the reload timer republishes. */
  datatype Tunables = Tunables(
    vectorItem: Material,
    bothHands: bool,
    singleTime: bool,
    visibilityLength: real,
    velocityModifier: real,
    maxVelocity: real)

  /** The field initializers of the plugin object. */
  const InitialTunables: Tunables := Tunables("AIR", false, false, 0.0, 0.0, 0.0)

  /**
   * The reload step as written: `getMaterial` yields null for an unknown item name and the
   * assignment to the non-null `vectorItem` throws, so no setting is assigned at all.
   */
  function ReloadAsWritten(current: Tunables, read: Tunables, materials: seq<Material>): Tunables {
    if read.vectorItem in materials then read else current
  }

  /** An unknown item name leaves every other setting stale, although the file has changed. */
  lemma ReloadAsWrittenKeepsStale(current: Tunables, read: Tunables, materials: seq<Material>)
    requires read.vectorItem !in materials
    requires read.bothHands != current.bothHands
    ensures ReloadAsWritten(current, read, materials).bothHands != read.bothHands
  {
  }

  /** The reload step as intended: all settings are published together; an unknown item name keeps the previous item. */
  function Reload(current: Tunables, read: Tunables, materials: seq<Material>): (t: Tunables)
    ensures t.bothHands == read.bothHands && t.singleTime == read.singleTime
    ensures t.visibilityLength == read.visibilityLength
    ensures t.velocityModifier == read.velocityModifier && t.maxVelocity == read.maxVelocity
    ensures t.vectorItem == if read.vectorItem in materials then read.vectorItem else current.vectorItem
    ensures current.vectorItem in materials ==> t.vectorItem in materials
  {
    read.(vectorItem := if read.vectorItem in materials then read.vectorItem else current.vectorItem)
  }

  /** With a known item name the intended step and the written one agree. */
  lemma ReloadAgreesOnKnownItem(current: Tunables, read: Tunables, materials: seq<Material>)
    requires read.vectorItem in materials
    ensures Reload(current, read, materials) == ReloadAsWritten(current, read, materials) == read
  {
  }

  // ---------------------------------------------------------- the registry

  /** An entity the ray trace may select: not the player, and its expanded box is hit. */
  predicate Candidate(player: EntityId, hits: EntityId -> bool, e: EntityId) {
    e != player && hits(e)
  }

  /** Every candidate lies at a positive distance from the eye. */
  predicate PositiveDistances(entities: seq<EntityId>, player: EntityId, hits: EntityId -> bool, dist: EntityId -> real) {
    forall j :: 0 <= j < |entities| && Candidate(player, hits, entities[j]) ==> dist(entities[j]) > 0.0
  }

  /** `e`, at position `k`, is the first candidate at the smallest distance. */
  predicate FirstNearestAt(entities: seq<EntityId>, player: EntityId, hits: EntityId -> bool,
                           dist: EntityId -> real, e: EntityId, k: int)
  {
    && 0 <= k < |entities| && entities[k] == e && Candidate(player, hits, e)
    && (forall j :: 0 <= j < k && Candidate(player, hits, entities[j]) ==> dist(entities[j]) > dist(e))
    && (forall j :: k < j < |entities| && Candidate(player, hits, entities[j]) ==> dist(entities[j]) >= dist(e))
  }

  ghost predicate FirstNearest(entities: seq<EntityId>, player: EntityId, hits: EntityId -> bool,
                               dist: EntityId -> real, e: EntityId)
  {
    exists k :: FirstNearestAt(entities, player, hits, dist, e, k)
  }

  /** There is at most one first nearest candidate. */
  lemma FirstNearestUnique(entities: seq<EntityId>, player: EntityId, hits: EntityId -> bool,
                           dist: EntityId -> real, e1: EntityId, e2: EntityId)
    requires FirstNearest(entities, player, hits, dist, e1) && FirstNearest(entities, player, hits, dist, e2)
    ensures e1 == e2
  {
    var k1 :| FirstNearestAt(entities, player, hits, dist, e1, k1);
    var k2 :| FirstNearestAt(entities, player, hits, dist, e2, k2);
    assert k1 < k2 ==> dist(e1) > dist(e2) && dist(e2) >= dist(e1);
    assert k2 < k1 ==> dist(e2) > dist(e1) && dist(e1) >= dist(e2);
  }

  /**
   * The scan of `newRayTrace` over the world's entities, with `distance == 0.0` as "nothing yet":
   * it finds a candidate exactly when there is one; with positive distances it is the first
   * candidate at the smallest distance; a candidate at distance zero is replaced by any later one.
   */
  method Nearest(entities: seq<EntityId>, player: EntityId, hits: EntityId -> bool, dist: EntityId -> real)
    returns (found: Option<EntityId>)
    ensures found.None? <==> forall j :: 0 <= j < |entities| ==> !Candidate(player, hits, entities[j])
    ensures found.Some? ==> found.value in entities && Candidate(player, hits, found.value)
    ensures found.Some? && PositiveDistances(entities, player, hits, dist) ==>
      FirstNearest(entities, player, hits, dist, found.value)
    ensures found.Some? && dist(found.value) == 0.0 ==>
      exists k :: 0 <= k < |entities| && entities[k] == found.value &&
        forall j :: k < j < |entities| ==> !Candidate(player, hits, entities[j])
  {
    found := None;
    var distance := 0.0;
    ghost var k := 0;
    for i := 0 to |entities|
      invariant found.None? <==> forall j :: 0 <= j < i ==> !Candidate(player, hits, entities[j])
      invariant found.None? ==> distance == 0.0
      invariant found.Some? ==> 0 <= k < i && entities[k] == found.value && Candidate(player, hits, found.value)
      invariant found.Some? ==> distance == dist(found.value)
      invariant found.Some? && distance == 0.0 ==> forall j :: k < j < i ==> !Candidate(player, hits, entities[j])
      invariant found.Some? && PositiveDistances(entities, player, hits, dist) ==>
        && (forall j :: 0 <= j < k && Candidate(player, hits, entities[j]) ==> dist(entities[j]) > distance)
        && (forall j :: k < j < i && Candidate(player, hits, entities[j]) ==> dist(entities[j]) >= distance)
    {
      var entity := entities[i];
      if entity != player && hits(entity) {
        var current := dist(entity);
        if current < distance || distance == 0.0 {
          distance, found, k := current, Some(entity), i;
        }
      }
    }
    if found.Some? && PositiveDistances(entities, player, hits, dist) {
      assert FirstNearestAt(entities, player, hits, dist, found.value, k);
    }
  }

  /** What `newRayTrace` does to the registry: nothing without a candidate, otherwise the player's entry is overwritten. */
  ghost predicate RayTraced(before: map<EntityId, EntityId>, after: map<EntityId, EntityId>, player: EntityId,
                            entities: seq<EntityId>, hits: EntityId -> bool, dist: EntityId -> real)
  {
    if forall j :: 0 <= j < |entities| ==> !Candidate(player, hits, entities[j]) then after == before
    else exists e :: (e in entities && Candidate(player, hits, e) && after == before[player := e] &&
                      (PositiveDistances(entities, player, hits, dist) ==> FirstNearest(entities, player, hits, dist, e)))
  }

  /** What `setTargetVelocity` does: with a selection, set that entity's velocity and drop the entry when asked to. */
  ghost predicate Impulsed(before: map<EntityId, EntityId>, beforeImpulses: seq<EntityId>,
                           after: map<EntityId, EntityId>, afterImpulses: seq<EntityId>,
                           player: EntityId, remove: bool)
  {
    if player in before then
      afterImpulses == beforeImpulses + [before[player]] &&
      after == if remove then before - {player} else before
    else after == before && afterImpulses == beforeImpulses
  }

  /** The largest `Int`; `Double.toInt()` saturates there. */
  const IntMax: int := 0x7fff_ffff

  /** `Double.toInt()` for a finite value: truncation toward zero, saturating at the `Int` range. */
  function ToInt(x: real): (n: int)
    ensures 0.0 <= x ==> 0 <= n <= IntMax && n as real <= x && (n < IntMax ==> x < (n + 1) as real)
  {
    if x >= 0.0 then (if x.Floor > IntMax then IntMax else x.Floor)
    else var m := (-x).Floor; if m > IntMax + 1 then -(IntMax + 1) else -m
  }

  // ------------------------------------------------------- interact events

  /** A step `onInteract` takes. */
  datatype Step =
    | ImpulseElseRayTrace  // `setTargetVelocity(...) ?: newRayTrace(...)`
    | RayTrace             // `newRayTrace(...)`
    | Impulse              // `setTargetVelocity(...)`

  /**
   * `onInteract`'s decision table: nothing unless the held item is the vector item and the
   * player may use it; then the event is cancelled and a right click impulses (tracing only when
   * there is no selection) or, in both-hands mode, traces, while a left click impulses only in
   * both-hands mode.
   */
  function InteractSteps(holdsVectorItem: bool, canUse: bool, action: Click, bothHands: bool): (r: Option<seq<Step>>)
    ensures r.Some? <==> holdsVectorItem && canUse
    ensures r.Some? ==> |r.value| <= 1
    ensures r.Some? && IsRightClick(action) ==> r.value == [if bothHands then RayTrace else ImpulseElseRayTrace]
    ensures r.Some? && IsLeftClick(action) ==> r.value == if bothHands then [Impulse] else []
    ensures r.Some? && action == Physical ==> r.value == []
  {
    if holdsVectorItem && canUse then
      var right := if IsRightClick(action) then [if !bothHands then ImpulseElseRayTrace else RayTrace] else [];
      var left := if IsLeftClick(action) && bothHands then [Impulse] else [];
      Some(right + left)
    else None
  }

  // ------------------------------------------------------------ the plugin

  const PluginHelp: string :=
    "===== Command <vector> =====\n" +
    "/vector -> Toggles vector feature\n" +
    "/vector help -> Shows vector help\n" +
    "/vector config <key|reset> [value] -> Updates plugin.yml\n\n\n"

  class Plugin {
    /** Whether the feature is on. */
    var status: bool
    /** How many times the interact handler is registered. */
    var listeners: nat
    /** The plugin's repeating tasks on the scheduler. */
    var tasks: seq<Task>
    /** Server-wide announcements, in order. */
    var broadcasts: seq<string>
    /** Messages to command senders, in order. */
    var sent: seq<string>
    /** The lines of `config.yml`. */
    var file: seq<string>
    /** `selectedEntities`: each player's targeted entity. */
    var selected: map<EntityId, EntityId>
    /** The config file's timestamp at the last reload; null before the first. */
    var lastModified: Option<int>
    /** The settings the reload timer publishes. */
    var tunables: Tunables
    /** The entities whose velocity was set, in order. */
    var impulses: seq<EntityId>
    /** For each particle emitted, the player whose selection it traces. */
    var particles: seq<EntityId>
    /** The `config.yml` shipped with the plugin, which `saveDefaultConfig` writes. */
    const defaults: seq<string>

    /** The field initializers, with `config.yml` as found on disk. */
    constructor (onDisk: seq<string>, shipped: seq<string>)
      ensures !status && listeners == 0 && tasks == [] && broadcasts == [] && sent == []
      ensures file == onDisk && defaults == shipped
      ensures selected == map[] && lastModified == None && tunables == InitialTunables
      ensures impulses == [] && particles == []
    {
      status, listeners, tasks, broadcasts, sent := false, 0, [], [], [];
      file, defaults := onDisk, shipped;
      selected, lastModified, tunables := map[], None, InitialTunables;
      impulses, particles := [], [];
    }

    /** `onEnable`: schedules the reload timer, every tick. */
    method OnEnable()
      modifies this`tasks
      ensures tasks == old(tasks) + [ReloadTimer]
    {
      tasks := tasks + [ReloadTimer];
    }

    /**
     * One run of the reload timer, given the file's timestamp and the settings read from it:
     * the same timestamp as last time changes nothing; a new one is recorded and all settings republished.
     */
    method ReloadTick(last: int, read: Tunables, materials: seq<Material>)
      requires ReloadTimer in tasks
      modifies this`lastModified, this`tunables
      ensures lastModified == Some(last)
      ensures old(lastModified) == Some(last) ==> tunables == old(tunables)
      ensures old(lastModified) != Some(last) ==> tunables == Reload(old(tunables), read, materials)
    {
      if lastModified != Some(last) {
        lastModified := Some(last);
        tunables := Reload(tunables, read, materials);
      }
    }

    /** `statusOn`: registers the handler, schedules only the particle task, and announces it. */
    method StatusOn()
      modifies this`status, this`listeners, this`tasks, this`broadcasts
      ensures status && listeners == old(listeners) + 1
      ensures tasks == old(tasks) + [ParticleTimer]
      ensures ReloadTimer in tasks <==> ReloadTimer in old(tasks)
      ensures broadcasts == old(broadcasts) + ["Vector On"]
    {
      status := true;
      listeners := listeners + 1;
      tasks := tasks + [ParticleTimer];
      broadcasts := broadcasts + ["Vector On"];
    }

    /** `statusOff`: unregisters every handler and cancels every task of the plugin, the reload timer included. */
    method StatusOff()
      modifies this`status, this`listeners, this`tasks, this`broadcasts
      ensures !status && listeners == 0 && tasks == []
      ensures broadcasts == old(broadcasts) + ["Vector Off"]
    {
      status := false;
      listeners := 0;
      tasks := [];
      broadcasts := broadcasts + ["Vector Off"];
    }

    /**
     * `onCommand`. `completed` is false when the command throws (a `getCurrentConfig` whose
     * matching line lacks its context); whenever it completes it returns true.
     * `keys` are the loaded config's keys and `current(key)` its value as text.
     */
    method OnCommand(args: seq<string>, canConfigure: bool, canToggle: bool,
                     keys: seq<string>, current: string -> string,
                     parse: string -> Option<real>, render: real -> string, materials: seq<Material>)
      returns (completed: bool)
      modifies this`status, this`listeners, this`tasks, this`broadcasts, this`sent, this`file
      ensures Dispatch(args, canConfigure, canToggle) != Toggle ==>
        status == old(status) && listeners == old(listeners) && tasks == old(tasks) && broadcasts == old(broadcasts)
      ensures Dispatch(args, canConfigure, canToggle) != Configure ==> file == old(file) && completed
      ensures Dispatch(args, canConfigure, canToggle) == Help ==> sent == old(sent) + [PluginHelp]
      ensures Dispatch(args, canConfigure, canToggle).Unknown? ==>
        |args| > 0 && sent == old(sent) + [Unrecognized("args", args[0])]
      ensures Dispatch(args, canConfigure, canToggle) in {Toggle, Ignore} ==> sent == old(sent)
      ensures Dispatch(args, canConfigure, canToggle) == Toggle && old(status) ==>
        !status && listeners == 0 && tasks == [] && broadcasts == old(broadcasts) + ["Vector Off"]
      ensures Dispatch(args, canConfigure, canToggle) == Toggle && !old(status) ==>
        status && listeners == old(listeners) + 1 && tasks == old(tasks) + [ParticleTimer]
        && broadcasts == old(broadcasts) + ["Vector On"]
      ensures Dispatch(args, canConfigure, canToggle) == Configure ==>
        match ConfigRoute(args, keys)
        case Send(m) => sent == old(sent) + [m] && file == old(file) && completed
        case Reset => sent == old(sent) && file == defaults && completed
        case ShowCurrent(k) =>
          file == old(file) && |sent| >= |old(sent)| && sent[..|old(sent)|] == old(sent)
          && ShowsCurrent(old(file), k, current(k), sent[|old(sent)|..], !completed)
        case SetValue(k, v) =>
          var o := SetConfigResult(old(file), k, v, parse, render, materials);
          completed && sent == old(sent) + o.sent && file == (if o.written.Some? then o.written.value else old(file))
    {
      completed := true;
      match Dispatch(args, canConfigure, canToggle)
      case Help => sent := sent + [PluginHelp];
      case Unknown(a) => sent := sent + [Unrecognized("args", a)];
      case Ignore =>
      case Toggle => if !status { StatusOn(); } else { StatusOff(); }
      case Configure =>
        match ConfigRoute(args, keys)
        case Send(m) => sent := sent + [m];
        case Reset => file := defaults;
        case ShowCurrent(k) =>
          var reports, aborted := ShowCurrentConfig(file, k, current(k));
          assert reports == (sent + reports)[|sent|..];
          sent := sent + reports;
          completed := !aborted;
        case SetValue(k, v) =>
          var messages, written := SetConfig(file, k, v, parse, render, materials);
          sent := sent + messages;
          if written.Some? { file := written.value; }
    }

    /** `setTargetVelocity`: null without a selection; otherwise the entity gets a velocity and `true` is returned. */
    method SetTargetVelocity(player: EntityId, remove: bool) returns (r: Option<bool>)
      modifies this`selected, this`impulses
      ensures r == if player in old(selected) then Some(true) else None
      ensures Impulsed(old(selected), old(impulses), selected, impulses, player, remove)
    {
      if player in selected {
        impulses := impulses + [selected[player]];
        if remove {
          selected := selected - {player};
        }
        return Some(true);
      }
      return None;
    }

    /** `newRayTrace`: selects the nearest entity whose expanded box the player's ray hits. */
    method NewRayTrace(player: EntityId, entities: seq<EntityId>, hits: EntityId -> bool, dist: EntityId -> real)
      modifies this`selected
      ensures RayTraced(old(selected), selected, player, entities, hits, dist)
    {
      var found := Nearest(entities, player, hits, dist);
      if found.Some? {
        selected := selected[player := found.value];
      }
    }

    /**
     * `newParticle` for one registry entry: an invalid player or entity drops the entry and
     * draws nothing; otherwise `toInt(distance * 5)` particles are emitted and the entry is kept.
     */
    method NewParticle(player: EntityId, playerValid: bool, entityValid: bool, distance: real)
      requires ParticleTimer in tasks
      requires player in selected
      requires distance >= 0.0
      modifies this`selected, this`particles
      ensures !playerValid || !entityValid ==> selected == old(selected) - {player} && particles == old(particles)
      ensures playerValid && entityValid ==>
        selected == old(selected) && particles == old(particles) + Repeat(player, ToInt(distance * 5.0))
    {
      if !playerValid || !entityValid {
        selected := selected - {player};
      } else {
        for i := 0 to ToInt(distance * 5.0)
          invariant selected == old(selected)
          invariant particles == old(particles) + Repeat(player, i)
        {
          particles := particles + [player];
        }
      }
    }

    /**
     * `onInteract`: returns whether the event is cancelled. `held` is the type of the item in
     * hand (null when empty); `entities`, `hits` and `dist` are what a ray trace sees.
     */
    method OnInteract(player: EntityId, held: Option<Material>, canUse: bool, action: Click,
                      entities: seq<EntityId>, hits: EntityId -> bool, dist: EntityId -> real)
      returns (cancelled: bool)
      requires listeners > 0
      modifies this`selected, this`impulses
      ensures cancelled <==> held == Some(tunables.vectorItem) && canUse
      ensures !cancelled || action == Physical || (IsLeftClick(action) && !tunables.bothHands) ==>
        selected == old(selected) && impulses == old(impulses)
      ensures cancelled && IsRightClick(action) && !tunables.bothHands && player in old(selected) ==>
        Impulsed(old(selected), old(impulses), selected, impulses, player, tunables.singleTime)
      ensures cancelled && IsRightClick(action) && (tunables.bothHands || player !in old(selected)) ==>
        impulses == old(impulses) && RayTraced(old(selected), selected, player, entities, hits, dist)
      ensures cancelled && IsLeftClick(action) && tunables.bothHands ==>
        Impulsed(old(selected), old(impulses), selected, impulses, player, tunables.singleTime)
    {
      var steps := InteractSteps(held == Some(tunables.vectorItem), canUse, action, tunables.bothHands);
      cancelled := steps.Some?;
      if steps.Some? && steps.value != [] {
        match steps.value[0]
        case ImpulseElseRayTrace =>
          var r := SetTargetVelocity(player, tunables.singleTime);
          if r.None? {
            NewRayTrace(player, entities, hits, dist);
          }
        case RayTrace =>
          NewRayTrace(player, entities, hits, dist);
        case Impulse =>
          var _ := SetTargetVelocity(player, tunables.singleTime);
      }
    }
  }
}
