/**
 * The `/vector` command surface that `VectorPlugin.kt` and `VectorCommand.kt`
 * share word for word: argument dispatch, the `config` sub-command's routing
 * by argument count, the key-name conventions, tab completion, the
 * "show current value" report, and the line rewrite `setConfig` performs.
 * The two files' `setConfig` loops differ and live in their own modules.
 */
module Commands {
  import opened Host
  import opened Text

  // ---------------------------------------------------------------- messages

  /** `CommandSender.unrecognizedMessage(what, value)`. */
  function Unrecognized(what: string, value: string): string {
    Concat(["Unrecognized ", what, ": '", value, "'"])
  }

  const RequiredKeyValue: string := "Required: key, value"

  /** The elements separated by `", "`, as Kotlin's `joinToString()`. */
  function Join(xs: seq<string>): string {
    if xs == [] then "" else if |xs| == 1 then xs[0] else xs[0] + ", " + Join(xs[1..])
  }

  /** A list of strings rendered as Kotlin's `List.toString()`. */
  function ListText(xs: seq<string>): string {
    "[" + Join(xs) + "]"
  }

  /** The parts written one after another. */
  function Concat(parts: seq<string>): string {
    if parts == [] then "" else parts[0] + Concat(parts[1..])
  }

  /** `n` copies of `m`. */
  function Repeat<T>(m: T, n: nat): (r: seq<T>)
    ensures |r| == n && forall j :: 0 <= j < n ==> r[j] == m
  {
    seq(n, _ => m)
  }

  // ------------------------------------------------------------ argument tests

  /** `String.resetRegexMatch()`: the pattern `(?i)conf|set` is found somewhere in `s`. */
  predicate ResetRegexMatch(s: string) {
    ContainsIgnoreCase(s, "conf") || ContainsIgnoreCase(s, "set")
  }

  /** Any argument that mentions `reset` also selects the config route, because `reset` contains `set`. */
  lemma ResetWordSelectsConfig(s: string)
    requires ContainsIgnoreCase(s, "reset")
    ensures ResetRegexMatch(s)
  {
    assert Lower("reset") == "reset" && Lower("set") == "set";
    assert OccursAt("reset", "set", 2);
    ContainsTransitive(Lower(s), "reset", "set");
  }

  /** The kind of a config key, by its name. */
  datatype KeyKind = DoubleKey | ItemKey | BooleanKey

  /** `setConfig`'s convention: case-sensitive tests, `double` before `item`. */
  function SetKind(key: string): KeyKind {
    if Contains(key, "double") then DoubleKey
    else if Contains(key, "item") then ItemKey
    else BooleanKey
  }

  /** `onTabComplete`'s convention: case-insensitive tests, `item` before `double`. */
  function TabKind(key: string): KeyKind {
    if ContainsIgnoreCase(key, "item") then ItemKey
    else if !ContainsIgnoreCase(key, "double") then BooleanKey
    else DoubleKey
  }

  /** The two conventions agree on every lower-case key that does not mention both `item` and `double`. */
  lemma KindsAgree(key: string)
    requires NoCapitals(key)
    requires !(Contains(key, "item") && Contains(key, "double"))
    ensures SetKind(key) == TabKind(key)
  {
    ContainsIgnoreCaseOfNoCapitals(key, "item");
    ContainsIgnoreCaseOfNoCapitals(key, "double");
  }

  /** They disagree on every key that mentions both: completion offers materials where `setConfig` expects a number. */
  lemma KindsDisagree(key: string)
    requires Contains(key, "item") && Contains(key, "double")
    ensures SetKind(key) == DoubleKey && TabKind(key) == ItemKey
  {
    ContainsThenIgnoreCase(key, "item");
  }

  /** `value.matches(Regex("true|false"))`: the whole value is one of the two words. */
  predicate IsBooleanWord(value: string) {
    value == "true" || value == "false"
  }

  // ------------------------------------------------------------------ dispatch

  /** What `onCommand` does with its arguments. */
  datatype Route =
    | Help                        // send the help text
    | Configure                   // run `configCommand`
    | Unknown(arg: string)        // report the unrecognized first argument
    | Toggle                      // flip the feature status
    | Ignore                      // no arguments and no toggle permission

  /** `onCommand`'s `when`: `help` wins, then the config route with its permission, then a report; no arguments toggles. */
  function Dispatch(args: seq<string>, canConfigure: bool, canToggle: bool): (r: Route)
    ensures r == Help <==> |args| > 0 && ContainsIgnoreCase(args[0], "help")
    ensures r == Configure <==>
      |args| > 0 && !ContainsIgnoreCase(args[0], "help") && ResetRegexMatch(args[0]) && canConfigure
    ensures r.Unknown? ==> |args| > 0 && r.arg == args[0]
    ensures r == Toggle <==> args == [] && canToggle
    ensures r == Ignore <==> args == [] && !canToggle
  {
    if |args| > 0 then
      if ContainsIgnoreCase(args[0], "help") then Help
      else if ResetRegexMatch(args[0]) && canConfigure then Configure
      else Unknown(args[0])
    else if canToggle then Toggle
    else Ignore
  }

  /** What `configCommand` does, by argument count. */
  datatype ConfigAction =
    | Send(message: string)                 // only a message to the sender
    | Reset                                 // delete `config.yml` and save the default one
    | ShowCurrent(key: string)              // `getCurrentConfig`
    | SetValue(key: string, value: string)  // `setConfig`

  /** `configCommand`'s `when (args.size)`; `keys` is the loaded config's top-level keys. */
  function ConfigRoute(args: seq<string>, keys: seq<string>): (r: ConfigAction)
    ensures r == Send(RequiredKeyValue) <== |args| == 1
    ensures r == Reset <==> |args| == 2 && ContainsIgnoreCase(args[1], "reset")
    ensures r.ShowCurrent? <==> |args| == 2 && !ContainsIgnoreCase(args[1], "reset") && args[1] in keys
    ensures r.ShowCurrent? ==> r.key == args[1]
    ensures r.SetValue? <==> |args| == 3 && args[1] in keys
    ensures r.SetValue? ==> r.key == args[1] && r.value == args[2]
    ensures |args| == 2 && !ContainsIgnoreCase(args[1], "reset") && args[1] !in keys ==>
      r == Send(Unrecognized("key", args[1]))
    ensures |args| == 3 && args[1] !in keys ==> r == Send(Unrecognized("Unrecognized key", args[1]))
    ensures |args| == 0 || |args| >= 4 ==> r == Send(Unrecognized("args", ListText(if |args| >= 3 then args[3..] else [])))
  {
    if |args| == 1 then Send(RequiredKeyValue)
    else if |args| == 2 then
      if ContainsIgnoreCase(args[1], "reset") then Reset
      else if args[1] in keys then ShowCurrent(args[1])
      else Send(Unrecognized("key", args[1]))
    else if |args| == 3 then
      if args[1] in keys then SetValue(args[1], args[2])
      else Send(Unrecognized("Unrecognized key", args[1]))
    else Send(Unrecognized("args", ListText(if |args| >= 3 then args[3..] else [])))
  }

  // ------------------------------------------------------------- tab completion

  /** `List<String>.filter(typed)`: the candidates that start with the typed text, ignoring case, in order. */
  function Filter(candidates: seq<string>, typed: string): (r: seq<string>)
    ensures |r| <= |candidates|
    ensures forall c :: c in r ==> c in candidates && StartsWithIgnoreCase(c, typed)
    ensures forall c :: c in candidates && StartsWithIgnoreCase(c, typed) ==> c in r
  {
    if candidates == [] then []
    else
      (if StartsWithIgnoreCase(candidates[0], typed) then [candidates[0]] else [])
      + Filter(candidates[1..], typed)
  }

  /** Filtering distributes over concatenation, so it keeps the candidates' order. */
  lemma {:induction false} FilterAppend(a: seq<string>, b: seq<string>, typed: string)
    ensures Filter(a + b, typed) == Filter(a, typed) + Filter(b, typed)
  {
    if a != [] {
      assert (a + b)[1..] == a[1..] + b;
      FilterAppend(a[1..], b, typed);
    } else {
      assert a + b == b;
    }
  }

  /** With nothing typed yet every candidate is offered. */
  lemma {:induction false} FilterNothingTyped(candidates: seq<string>)
    ensures Filter(candidates, "") == candidates
  {
    if candidates != [] {
      FilterNothingTyped(candidates[1..]);
    }
  }

  const Subcommands: seq<string> := ["config", "help"]
  const BooleanWords: seq<string> := ["true", "false"]

  /**
   * `onTabComplete`: the sub-commands at the first position, the config keys at the second
   * (after a config word), and at the third (after a config word and a known key) the
   * material names for item keys, the two boolean words for keys that name neither an
   * item nor a double, and nothing for double keys; each list filtered by the word being typed.
   */
  function TabComplete(args: seq<string>, keys: seq<string>, materials: seq<Material>): (r: seq<string>)
    ensures |args| == 0 || |args| > 3 ==> r == []
    ensures |args| == 1 ==> r == Filter(Subcommands, args[0])
    ensures |args| == 2 ==> r == if ResetRegexMatch(args[0]) then Filter(keys, args[1]) else []
    ensures |args| == 3 ==>
      r == if ResetRegexMatch(args[0]) && args[1] in keys then Filter(ValueWords(args[1], materials), args[2]) else []
  {
    match |args|
    case 1 => Filter(Subcommands, args[0])
    case 2 => if ResetRegexMatch(args[0]) then Filter(keys, args[1]) else []
    case 3 =>
      if ResetRegexMatch(args[0]) && args[1] in keys then
        if ContainsIgnoreCase(args[1], "item") then Filter(materials, args[2])
        else if !ContainsIgnoreCase(args[1], "double") then Filter(BooleanWords, args[2])
        else []
      else []
    case _ => []
  }

  /** The words completion offers for a key's value: material names, the boolean words, or none for numbers. */
  function ValueWords(key: string, materials: seq<Material>): seq<string> {
    match TabKind(key)
    case ItemKey => materials
    case BooleanKey => BooleanWords
    case DoubleKey => []
  }

  /** Every suggestion starts with the word being typed and comes from the list that fits its position. */
  lemma TabCompleteSound(args: seq<string>, keys: seq<string>, materials: seq<Material>, s: string)
    requires s in TabComplete(args, keys, materials)
    ensures 0 < |args| <= 3 && StartsWithIgnoreCase(s, args[|args| - 1])
    ensures |args| == 1 ==> s in Subcommands
    ensures |args| == 2 ==> s in keys && ResetRegexMatch(args[0])
    ensures |args| == 3 ==>
      ResetRegexMatch(args[0]) && args[1] in keys &&
      (if TabKind(args[1]) == ItemKey then s in materials else TabKind(args[1]) == BooleanKey && s in BooleanWords)
  {
  }

  /** Completion of a key position offers every config key that starts with what was typed. */
  lemma TabCompletesKeys(args: seq<string>, keys: seq<string>, materials: seq<Material>, k: string)
    requires |args| == 2 && ResetRegexMatch(args[0])
    requires k in keys && StartsWithIgnoreCase(k, args[1])
    ensures k in TabComplete(args, keys, materials)
  {
  }

  // ------------------------------------------------------ matching config lines

  /** The indices below `n` of the lines that contain `key`, in ascending order. */
  function Matching(lines: seq<string>, key: string, n: nat): (ms: seq<nat>)
    requires n <= |lines|
    ensures |ms| <= n
    ensures forall j :: 0 <= j < |ms| ==> ms[j] < n && Contains(lines[ms[j]], key)
    ensures forall i :: 0 <= i < n && Contains(lines[i], key) ==> i in ms
    ensures forall j, k :: 0 <= j < k < |ms| ==> ms[j] < ms[k]
  {
    if n == 0 then []
    else Matching(lines, key, n - 1) + (if Contains(lines[n - 1], key) then [n - 1] else [])
  }

  /** The matches below `m` are the first matches below any larger `n`. */
  lemma {:induction false} MatchingPrefix(lines: seq<string>, key: string, m: nat, n: nat)
    requires m <= n <= |lines|
    ensures Matching(lines, key, m) <= Matching(lines, key, n)
  {
    if m < n {
      MatchingPrefix(lines, key, m, n - 1);
      var last := if Contains(lines[n - 1], key) then [n - 1] else [];
      assert Matching(lines, key, n) == Matching(lines, key, n - 1) + last;
    }
  }

  /** How many lines contain `key`. */
  function MatchCount(lines: seq<string>, key: string): nat {
    |Matching(lines, key, |lines|)|
  }

  // ------------------------------------------------------- getCurrentConfig

  /** Line `i` has three lines before it, each at least two characters long (their `substring(2)` exists). */
  predicate HasContext(lines: seq<string>, i: int) {
    3 <= i < |lines| && |lines[i - 3]| >= 2 && |lines[i - 2]| >= 2 && |lines[i - 1]| >= 2
  }

  /** The report for the matching line `i`: its three comment lines without their `# ` and the current value. */
  function Panel(lines: seq<string>, i: int, key: string, value: string): string
    requires HasContext(lines, i)
  {
    Concat(["\n \n \n", lines[i - 3][2..], "\n", lines[i - 2][2..], "\n", lines[i - 1][2..], "\n \n",
            "Current ", key, ": ", value, "\n"])
  }

  /**
   * What `getCurrentConfig` leaves behind: one report per matching line, in order, up to the
   * first matching line without context, where the uncaught index exception aborts the command.
   */
  ghost predicate ShowsCurrent(lines: seq<string>, key: string, value: string, sent: seq<string>, aborted: bool) {
    var ms := Matching(lines, key, |lines|);
    && |sent| <= |ms|
    && (forall j :: 0 <= j < |sent| ==> HasContext(lines, ms[j]) && sent[j] == Panel(lines, ms[j], key, value))
    && (aborted <==> exists j :: 0 <= j < |ms| && !HasContext(lines, ms[j]))
    && (aborted ==> !HasContext(lines, ms[|sent|]))
    && (!aborted ==> |sent| == |ms|)
  }

  /** The description above leaves no choice: it fixes both the messages and whether the command aborts. */
  lemma ShowsCurrentDeterministic(lines: seq<string>, key: string, value: string,
                                  s1: seq<string>, a1: bool, s2: seq<string>, a2: bool)
    requires ShowsCurrent(lines, key, value, s1, a1) && ShowsCurrent(lines, key, value, s2, a2)
    ensures s1 == s2 && a1 == a2
  {
    var ms := Matching(lines, key, |lines|);
    ReportCount(lines, ms, |s1|, 0);
    ReportCount(lines, ms, |s2|, 0);
  }

  /** The position of the first matching line at or after `j` that lacks its context, or the number of matches. */
  function FirstWithoutContext(lines: seq<string>, ms: seq<nat>, j: nat): (r: nat)
    requires j <= |ms|
    ensures j <= r <= |ms|
    decreases |ms| - j
  {
    if j == |ms| then |ms|
    else if !HasContext(lines, ms[j]) then j
    else FirstWithoutContext(lines, ms, j + 1)
  }

  /**
   * A count `n` of matches that all have their context, followed by one without context
   * or by the end, is the position of the first match without context.
   */
  lemma {:induction false} ReportCount(lines: seq<string>, ms: seq<nat>, n: nat, j: nat)
    requires j <= n <= |ms|
    requires forall k :: 0 <= k < n ==> HasContext(lines, ms[k])
    requires n < |ms| ==> !HasContext(lines, ms[n])
    ensures FirstWithoutContext(lines, ms, j) == n
    decreases n - j
  {
    if j < n {
      ReportCount(lines, ms, n, j + 1);
    }
  }

  /** `getCurrentConfig`: reports each line containing `key`; `value` is `config.get(key)` as text. */
  method ShowCurrentConfig(lines: seq<string>, key: string, value: string) returns (sent: seq<string>, aborted: bool)
    ensures ShowsCurrent(lines, key, value, sent, aborted)
    ensures !aborted ==> |sent| == MatchCount(lines, key)
  {
    sent, aborted := [], false;
    for i := 0 to |lines|
      invariant ReportsUpTo(lines, key, value, sent, i)
    {
      if Contains(lines[i], key) {
        if !HasContext(lines, i) {
          aborted := true;
          AbortedReport(lines, key, value, sent, i);
          return;
        }
        sent := sent + [Panel(lines, i, key, value)];
      }
    }
  }

  /** `sent` holds the reports for the matching lines below `n`, all of which have their context. */
  ghost predicate ReportsUpTo(lines: seq<string>, key: string, value: string, sent: seq<string>, n: nat)
    requires n <= |lines|
  {
    var ms := Matching(lines, key, n);
    |sent| == |ms| && forall j :: 0 <= j < |sent| ==> HasContext(lines, ms[j]) && sent[j] == Panel(lines, ms[j], key, value)
  }

  /** Stopping at the first matching line `i` without context leaves exactly the reports `getCurrentConfig` sent. */
  lemma AbortedReport(lines: seq<string>, key: string, value: string, sent: seq<string>, i: nat)
    requires i < |lines| && ReportsUpTo(lines, key, value, sent, i)
    requires Contains(lines[i], key) && !HasContext(lines, i)
    ensures ShowsCurrent(lines, key, value, sent, true)
  {
    var ms := Matching(lines, key, |lines|);
    var before := Matching(lines, key, i);
    MatchingPrefix(lines, key, i + 1, |lines|);
    assert Matching(lines, key, i + 1) == before + [i];
    ExtendedPrefix(before, i, ms);
    assert !HasContext(lines, ms[|sent|]);
  }

  /** A sequence that starts with `pre` and then `x` agrees with `pre` below its length and holds `x` there. */
  lemma ExtendedPrefix(pre: seq<nat>, x: nat, ms: seq<nat>)
    requires pre + [x] <= ms
    ensures |pre| < |ms| && ms[|pre|] == x
    ensures forall j :: 0 <= j < |pre| ==> ms[j] == pre[j]
  {
    assert ms[..|pre| + 1] == pre + [x];
  }

  // ------------------------------------------------------------- line rewrite

  /** The messages a config write sends and the lines it writes back (`None`: nothing is written). */
  datatype SetOutcome = SetOutcome(sent: seq<string>, written: Option<seq<string>>)

  /** Every line that contains `key`, comment lines included, replaced by `line`; the others kept. */
  function Rewritten(lines: seq<string>, key: string, line: string): (r: seq<string>)
    ensures |r| == |lines|
    ensures forall i :: 0 <= i < |lines| ==> r[i] == if Contains(lines[i], key) then line else lines[i]
  {
    if lines == [] then []
    else [if Contains(lines[0], key) then line else lines[0]] + Rewritten(lines[1..], key, line)
  }

  /** Lines that agree with the rewrite at every index are the rewrite. */
  lemma RewrittenPointwise(file: seq<string>, key: string, line: string, lines: seq<string>)
    requires |lines| == |file|
    requires forall j :: 0 <= j < |file| ==> lines[j] == if Contains(file[j], key) then line else file[j]
    ensures lines == Rewritten(file, key, line)
  {
  }

  /** The start of a `key: value` line. */
  function EntryPrefix(key: string): string {
    key + ": "
  }

  /** The `key: value` line a write produces. */
  function Entry(key: string, value: string): string {
    EntryPrefix(key) + value
  }

  /**
   * What `setConfig` makes of a line that mentions the key: a `double` key the rendered
   * number, an `item` key the upper-cased name, any other key the value when it is `true`
   * or `false`. None: the value does not parse, or is no boolean word.
   */
  function Becomes(key: string, value: string, parse: string -> Option<real>, render: real -> string): Option<string> {
    match SetKind(key)
    case DoubleKey => if parse(value).Some? then Some(Entry(key, render(parse(value).value))) else None
    case ItemKey => Some(Entry(key, Upper(value)))
    case BooleanKey => if IsBooleanWord(value) then Some(Entry(key, value)) else None
  }

  /** What a line of the file is once a rewriting pass is over it. */
  function Target(line: string, key: string, becomes: Option<string>): string {
    if Contains(line, key) && becomes.Some? then becomes.value else line
  }

  /** Writing the same entry twice changes nothing more: the rewritten lines still contain the key. */
  lemma RewriteIdempotent(lines: seq<string>, key: string, value: string)
    ensures Rewritten(Rewritten(lines, key, Entry(key, value)), key, Entry(key, value))
         == Rewritten(lines, key, Entry(key, value))
  {
    ContainsPrefix(key, ": " + value);
    assert Entry(key, value) == key + (": " + value);
    assert Contains(Entry(key, value), key);
  }

  /** Lines without the key make the rewrite a no-op. */
  lemma RewriteWithoutMatch(lines: seq<string>, key: string, line: string)
    requires MatchCount(lines, key) == 0
    ensures Rewritten(lines, key, line) == lines
  {
  }

  /** The first line starts with `key: `. */
  predicate IsEntryFor(line: string, key: string) {
    |EntryPrefix(key)| <= |line| && line[..|EntryPrefix(key)|] == EntryPrefix(key)
  }

  /**
   * Reading a key back the way a `key: value` file is read: the text after `key: `
   * on the first line that starts with it.
   */
  function ReadBack(lines: seq<string>, key: string): Option<string> {
    if lines == [] then None
    else if IsEntryFor(lines[0], key) then Some(lines[0][|EntryPrefix(key)|..])
    else ReadBack(lines[1..], key)
  }

  /** Set-then-read round trip: once some line mentions the key, the written value is what is read back. */
  lemma {:induction false} WriteThenReadBack(lines: seq<string>, key: string, value: string)
    requires MatchCount(lines, key) > 0
    ensures ReadBack(Rewritten(lines, key, Entry(key, value)), key) == Some(value)
  {
    var r := Rewritten(lines, key, Entry(key, value));
    if Contains(lines[0], key) {
      assert r[0] == EntryPrefix(key) + value;
      assert IsEntryFor(r[0], key);
    } else {
      assert r[0] == lines[0];
      EntryLineContainsKey(lines[0], key);
      MatchingShift(lines, key);
      WriteThenReadBack(lines[1..], key, value);
      assert r[1..] == Rewritten(lines[1..], key, Entry(key, value));
    }
  }

  /** A line that starts with `key: ` contains the key. */
  lemma EntryLineContainsKey(line: string, key: string)
    ensures IsEntryFor(line, key) ==> Contains(line, key)
  {
    if IsEntryFor(line, key) {
      assert line[..|EntryPrefix(key)|][..|key|] == key;
      assert OccursAt(line, key, 0);
    }
  }

  /** Dropping a first line that does not match keeps the other matches. */
  lemma MatchingShift(lines: seq<string>, key: string)
    requires lines != [] && !Contains(lines[0], key) && MatchCount(lines, key) > 0
    ensures MatchCount(lines[1..], key) > 0
  {
    var i := Matching(lines, key, |lines|)[0];
    assert Contains(lines[1..][i - 1], key);
  }
}
