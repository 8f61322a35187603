/**
 * `VectorCommand.kt`: the command executor split out of the plugin. Its
 * dispatch, routing, tab completion and "show current value" report are the
 * shared ones in `Commands`; its `setConfig` differs from the plugin's: it
 * echoes every line to the sender as it goes, and an invalid boolean value
 * stops the command before anything is written.
 */
module VectorCommand {
  import opened Host
  import opened Text
  import opened Commands
  import VectorPlugin

  // ---------------------------------------------------------------- setConfig

  /** What `setConfig` sends for one line: the warnings and the rewritten line if it matches, else the line. */
  function EchoOf(line: string, key: string, becomes: string, warning: seq<string>): seq<string> {
    if Contains(line, key) then warning + [becomes] else [line]
  }

  /** The messages a full pass sends, line after line. */
  function Echo(lines: seq<string>, key: string, becomes: string, warning: seq<string>): seq<string> {
    if lines == [] then []
    else Echo(lines[..|lines| - 1], key, becomes, warning) + EchoOf(lines[|lines| - 1], key, becomes, warning)
  }

  /** Without warnings the echo is exactly the file as it is written back. */
  lemma {:induction false} EchoWithoutWarnings(lines: seq<string>, key: string, becomes: string)
    ensures Echo(lines, key, becomes, []) == Rewritten(lines, key, becomes)
  {
    if lines != [] {
      var init := lines[..|lines| - 1];
      EchoWithoutWarnings(init, key, becomes);
      RewrittenPointwise(lines, key, becomes, Rewritten(init, key, becomes) + EchoOf(lines[|lines| - 1], key, becomes, []));
    }
  }

  /** A pass that writes: every line echoed (with its warnings) and the matches rewritten. */
  function WrittenPass(file: seq<string>, key: string, becomes: string, warning: seq<string>): SetOutcome {
    SetOutcome(Echo(file, key, becomes, warning), Some(Rewritten(file, key, becomes)))
  }

  /** A pass that stops at the first matching line: the lines before it echoed, then `message`, nothing written. */
  function StoppedPass(file: seq<string>, key: string, message: string): SetOutcome {
    if MatchCount(file, key) == 0 then SetOutcome(file, Some(file))
    else SetOutcome(file[..Matching(file, key, |file|)[0]] + [message], None)
  }

  /**
   * What `setConfig` in this file does: like the plugin's, except that every line is echoed
   * after it is processed and an invalid boolean value ends the command without a write.
   */
  function SetConfigResult(file: seq<string>, key: string, value: string,
                           parse: string -> Option<real>, render: real -> string,
                           materials: seq<Material>): SetOutcome
  {
    match SetKind(key)
    case DoubleKey =>
      if parse(value).Some? then WrittenPass(file, key, Entry(key, render(parse(value).value)), [])
      else StoppedPass(file, key, Unrecognized("value", value))
    case ItemKey =>
      WrittenPass(file, key, Entry(key, Upper(value)),
                  if Upper(value) in materials then [] else [Unrecognized("key", value)])
    case BooleanKey =>
      if IsBooleanWord(value) then WrittenPass(file, key, Entry(key, value), [])
      else StoppedPass(file, key, Unrecognized("value", value))
  }

  /** The warnings a matching line draws before it is echoed. */
  function Warning(key: string, value: string, materials: seq<Material>): seq<string> {
    if SetKind(key) == ItemKey && Upper(value) !in materials then [Unrecognized("key", value)] else []
  }

  /** The outcome is a written pass or a stopped one, as `Becomes` decides. */
  lemma SetConfigResultCases(file: seq<string>, key: string, value: string,
                             parse: string -> Option<real>, render: real -> string, materials: seq<Material>)
    ensures var b := Becomes(key, value, parse, render);
      SetConfigResult(file, key, value, parse, render, materials)
      == if b.Some? then WrittenPass(file, key, b.value, Warning(key, value, materials))
         else StoppedPass(file, key, Unrecognized("value", value))
  {
  }

  /** `setConfig`: the loop over the file's lines with its echo and its early return. */
  method SetConfig(file: seq<string>, key: string, value: string,
                   parse: string -> Option<real>, render: real -> string, materials: seq<Material>)
    returns (sent: seq<string>, written: Option<seq<string>>)
    ensures SetOutcome(sent, written) == SetConfigResult(file, key, value, parse, render, materials)
  {
    // what a matching line becomes (None: the pass stops there), and the warnings it draws
    ghost var becomes := Becomes(key, value, parse, render);
    ghost var warning := Warning(key, value, materials);

    var lines := file;
    sent := [];
    for i := 0 to |lines|
      invariant |lines| == |file|
      invariant forall j :: i <= j < |file| ==> lines[j] == file[j]
      invariant forall j :: 0 <= j < i ==> lines[j] == Target(file[j], key, becomes)
      invariant becomes.Some? ==> sent == Echo(file[..i], key, becomes.value, warning)
      invariant becomes.None? ==> sent == file[..i] && |Matching(file, key, i)| == 0
    {
      ghost var before := sent;
      if Contains(lines[i], key) {
        match SetKind(key) {
          case DoubleKey =>
            var parsed := parse(value);
            if parsed.None? {
              // NumberFormatException: caught and reported, nothing written
              sent, written := sent + [Unrecognized("value", value)], None;
              StopsAtFirstMatch(file, key, i, Unrecognized("value", value));
              SetConfigResultCases(file, key, value, parse, render, materials);
              return;
            }
            lines := lines[i := Entry(key, render(parsed.value))];
          case ItemKey =>
            if Upper(value) !in materials {
              sent := sent + [Unrecognized("key", value)];
            }
            lines := lines[i := Entry(key, Upper(value))];
          case BooleanKey =>
            if !IsBooleanWord(value) {
              sent, written := sent + [Unrecognized("value", value)], None;
              StopsAtFirstMatch(file, key, i, Unrecognized("value", value));
              SetConfigResultCases(file, key, value, parse, render, materials);
              return;
            }
            lines := lines[i := Entry(key, value)];
        }
      }
      assert lines[i] == Target(file[i], key, becomes);
      sent := sent + [lines[i]];
      if becomes.Some? {
        assert sent == before + EchoOf(file[i], key, becomes.value, warning);
        EchoStep(file, key, becomes.value, warning, i);
      } else {
        assert file[..i + 1] == file[..i] + [file[i]];
      }
    }
    written := Some(lines);
    SetConfigResultCases(file, key, value, parse, render, materials);
    if becomes.Some? {
      FullPass(file, key, becomes.value, warning, sent, lines);
    } else {
      NoMatchPass(file, key, Unrecognized("value", value), sent, lines);
    }
  }

  /** A pass that ran to the end with a rewrite is the written pass. */
  lemma FullPass(file: seq<string>, key: string, becomes: string, warning: seq<string>,
                 sent: seq<string>, lines: seq<string>)
    requires |lines| == |file|
    requires forall j :: 0 <= j < |file| ==> lines[j] == Target(file[j], key, Some(becomes))
    requires sent == Echo(file[..|file|], key, becomes, warning)
    ensures SetOutcome(sent, Some(lines)) == WrittenPass(file, key, becomes, warning)
  {
    assert file[..|file|] == file;
    RewrittenPointwise(file, key, becomes, lines);
  }

  /** A pass that ran to the end without a rewrite met no matching line: the stopped pass with nothing to stop at. */
  lemma NoMatchPass(file: seq<string>, key: string, message: string, sent: seq<string>, lines: seq<string>)
    requires |lines| == |file| && forall j :: 0 <= j < |file| ==> lines[j] == file[j]
    requires sent == file[..|file|] && |Matching(file, key, |file|)| == 0
    ensures SetOutcome(sent, Some(lines)) == StoppedPass(file, key, message)
  {
    assert file[..|file|] == file;
    assert lines == file;
  }

  /** The echo of one more line extends the echo so far. */
  lemma EchoStep(file: seq<string>, key: string, becomes: string, warning: seq<string>, i: nat)
    requires i < |file|
    ensures Echo(file[..i + 1], key, becomes, warning) == Echo(file[..i], key, becomes, warning) + EchoOf(file[i], key, becomes, warning)
  {
    assert file[..i + 1][..i] == file[..i];
  }

  /** The first matching line is the one where a pass with no earlier match stops. */
  lemma StopsAtFirstMatch(file: seq<string>, key: string, i: nat, message: string)
    requires i < |file| && Contains(file[i], key) && |Matching(file, key, i)| == 0
    ensures MatchCount(file, key) > 0 && Matching(file, key, |file|)[0] == i
    ensures StoppedPass(file, key, message) == SetOutcome(file[..i] + [message], None)
  {
    MatchingPrefix(file, key, i + 1, |file|);
    assert Matching(file, key, i + 1) == [i];
  }

  /** When nothing is wrong with the value, the sender sees exactly the lines that are written. */
  lemma EchoShowsWrittenFile(file: seq<string>, key: string, value: string,
                             parse: string -> Option<real>, render: real -> string, materials: seq<Material>)
    requires match SetKind(key)
      case DoubleKey => parse(value).Some?
      case ItemKey => Upper(value) in materials
      case BooleanKey => IsBooleanWord(value)
    ensures var o := SetConfigResult(file, key, value, parse, render, materials);
      o.written.Some? && o.sent == o.written.value
  {
    match SetKind(key)
    case DoubleKey => EchoWithoutWarnings(file, key, Entry(key, render(parse(value).value)));
    case ItemKey => EchoWithoutWarnings(file, key, Entry(key, Upper(value)));
    case BooleanKey => EchoWithoutWarnings(file, key, Entry(key, value));
  }

  /**
   * The two `setConfig`s part ways on an invalid boolean value for a key the file mentions:
   * the plugin's warns once per matching line and writes the file back unchanged, this one
   * warns once and writes nothing.
   */
  lemma InvalidBooleanDiffers(file: seq<string>, key: string, value: string,
                              parse: string -> Option<real>, render: real -> string, materials: seq<Material>)
    requires SetKind(key) == BooleanKey && !IsBooleanWord(value) && MatchCount(file, key) > 0
    ensures VectorPlugin.SetConfigResult(file, key, value, parse, render, materials).written == Some(file)
    ensures |VectorPlugin.SetConfigResult(file, key, value, parse, render, materials).sent| == MatchCount(file, key)
    ensures SetConfigResult(file, key, value, parse, render, materials).written == None
    ensures Unrecognized("value", value) in SetConfigResult(file, key, value, parse, render, materials).sent
  {
  }

  /** Whenever both write, they write the same lines. */
  lemma WrittenLinesAgree(file: seq<string>, key: string, value: string,
                          parse: string -> Option<real>, render: real -> string, materials: seq<Material>)
    requires SetConfigResult(file, key, value, parse, render, materials).written.Some?
    ensures VectorPlugin.SetConfigResult(file, key, value, parse, render, materials).written
         == SetConfigResult(file, key, value, parse, render, materials).written
  {
  }

  // ------------------------------------------------------------ the executor

  const CommandHelp: string :=
    "\n \n \n" +
    "===== Command <vector> =====\n" +
    "/vector -> Toggles vector feature\n" +
    "/vector help -> Shows vector help\n" +
    "/vector config <key|reset> [value] -> Updates plugin.yml\n"

  class Executor {
    /** Whether the feature is on. */
    var status: bool
    /** How many interact listeners are registered for the plugin. */
    var listeners: nat
    /** The plugin's repeating tasks on the scheduler. */
    var tasks: seq<Task>
    /** Server-wide announcements, in order. */
    var broadcasts: seq<string>
    /** Messages to command senders, in order. */
    var sent: seq<string>
    /** The lines of `config.yml`. */
    var file: seq<string>
    /** The `config.yml` shipped with the plugin, which `saveDefaultConfig` writes. */
    const defaults: seq<string>

    /** A new executor for a plugin with the given tasks and `config.yml`. */
    constructor (scheduled: seq<Task>, registered: nat, onDisk: seq<string>, shipped: seq<string>)
      ensures !status && listeners == registered && tasks == scheduled && broadcasts == [] && sent == []
      ensures file == onDisk && defaults == shipped
    {
      status, listeners, tasks, broadcasts, sent := false, registered, scheduled, [], [];
      file, defaults := onDisk, shipped;
    }

    /** `statusOn`: registers a new event listener, schedules the particle task, and announces it. */
    method StatusOn()
      modifies this`status, this`listeners, this`tasks, this`broadcasts
      ensures status && listeners == old(listeners) + 1
      ensures tasks == old(tasks) + [ParticleTimer]
      ensures broadcasts == old(broadcasts) + ["Vector On"]
    {
      status := true;
      listeners := listeners + 1;
      tasks := tasks + [ParticleTimer];
      broadcasts := broadcasts + ["Vector On"];
    }

    /** `statusOff`: unregisters all of the plugin's listeners and cancels all of its tasks. */
    method StatusOff()
      modifies this`status, this`listeners, this`tasks, this`broadcasts
      ensures !status && listeners == 0 && tasks == []
      ensures broadcasts == old(broadcasts) + ["Vector Off"]
    {
      status := false;
      listeners := 0;
      tasks := [];
      broadcasts := broadcasts + ["Vector Off"];
    }

    /**
     * `onCommand`. `completed` is false when the command throws (a `getCurrentConfig` whose
     * matching line lacks its context); whenever it completes it returns true.
     * `keys` are the loaded config's keys and `current(key)` its value as text.
     */
    method OnCommand(args: seq<string>, canConfigure: bool, canToggle: bool,
                     keys: seq<string>, current: string -> string,
                     parse: string -> Option<real>, render: real -> string, materials: seq<Material>)
      returns (completed: bool)
      modifies this`status, this`listeners, this`tasks, this`broadcasts, this`sent, this`file
      ensures Dispatch(args, canConfigure, canToggle) != Toggle ==>
        status == old(status) && listeners == old(listeners) && tasks == old(tasks) && broadcasts == old(broadcasts)
      ensures Dispatch(args, canConfigure, canToggle) != Configure ==> file == old(file) && completed
      ensures Dispatch(args, canConfigure, canToggle) == Help ==> sent == old(sent) + [CommandHelp]
      ensures Dispatch(args, canConfigure, canToggle).Unknown? ==>
        |args| > 0 && sent == old(sent) + [Unrecognized("args", args[0])]
      ensures Dispatch(args, canConfigure, canToggle) in {Toggle, Ignore} ==> sent == old(sent)
      ensures Dispatch(args, canConfigure, canToggle) == Toggle && old(status) ==>
        !status && listeners == 0 && tasks == [] && broadcasts == old(broadcasts) + ["Vector Off"]
      ensures Dispatch(args, canConfigure, canToggle) == Toggle && !old(status) ==>
        status && listeners == old(listeners) + 1 && tasks == old(tasks) + [ParticleTimer]
        && broadcasts == old(broadcasts) + ["Vector On"]
      ensures Dispatch(args, canConfigure, canToggle) == Configure ==>
        match ConfigRoute(args, keys)
        case Send(m) => sent == old(sent) + [m] && file == old(file) && completed
        case Reset => sent == old(sent) && file == defaults && completed
        case ShowCurrent(k) =>
          file == old(file) && |sent| >= |old(sent)| && sent[..|old(sent)|] == old(sent)
          && ShowsCurrent(old(file), k, current(k), sent[|old(sent)|..], !completed)
        case SetValue(k, v) =>
          var o := SetConfigResult(old(file), k, v, parse, render, materials);
          completed && sent == old(sent) + o.sent && file == (if o.written.Some? then o.written.value else old(file))
    {
      completed := true;
      match Dispatch(args, canConfigure, canToggle)
      case Help => sent := sent + [CommandHelp];
      case Unknown(a) => sent := sent + [Unrecognized("args", a)];
      case Ignore =>
      case Toggle => if !status { StatusOn(); } else { StatusOff(); }
      case Configure =>
        match ConfigRoute(args, keys)
        case Send(m) => sent := sent + [m];
        case Reset => file := defaults;
        case ShowCurrent(k) =>
          var reports, aborted := ShowCurrentConfig(file, k, current(k));
          assert reports == (sent + reports)[|sent|..];
          sent := sent + reports;
          completed := !aborted;
        case SetValue(k, v) =>
          var messages, written := SetConfig(file, k, v, parse, render, materials);
          sent := sent + messages;
          if written.Some? { file := written.value; }
    }
  }
}
