/**
 * The plugin registry of flatpack_plugins.py: plugin descriptors, the
 * `# PLUGIN: key: value` header of script plugins, the interpreter choice
 * for scripts, loading and unloading over the `loaded_plugins` map and the
 * hook -> plugin-name lists, and hook execution threading a context through
 * the registered plugins.
 *
 * What importing a Python plugin yields, whether its `initialize` succeeds,
 * which hooks it supports and what its `execute_hook` does are inputs
 * (`PythonPlugin`); so are a script's suffix, its existence and its lines.
 */
module Plugins {
  import opened Wrappers
  import opened JsonValue
  import Strings

  datatype PluginInfo = PluginInfo(
    name: string,
    version: string,
    description: string,
    author: string,
    pluginType: string,       // script, python, hook
    entryPoint: string,
    dependencies: seq<string>,
    configSchema: map<string, Json>,
    enabled: bool)

  /** The dataclass constructor with `__post_init__`: missing lists and dicts become empty ones. */
  function MakePluginInfo(name: string, version: string, description: string, author: string,
                          pluginType: string, entryPoint: string,
                          dependencies: Option<seq<string>>, configSchema: Option<map<string, Json>>,
                          enabled: bool): (r: PluginInfo)
    ensures r.name == name && r.version == version && r.description == description && r.author == author
    ensures r.pluginType == pluginType && r.entryPoint == entryPoint && r.enabled == enabled
    ensures r.dependencies == (if dependencies.None? then [] else dependencies.value)
    ensures r.configSchema == (if configSchema.None? then map[] else configSchema.value)
  {
    PluginInfo(name, version, description, author, pluginType, entryPoint,
               if dependencies.None? then [] else dependencies.value,
               if configSchema.None? then map[] else configSchema.value,
               enabled)
  }

  // ---------------------------------------------------------------------
  // Script plugins: interpreter and header
  // ---------------------------------------------------------------------

  /**
   * ScriptPlugin.detect_interpreter: by suffix, otherwise the first word
   * after `#!` on the stripped first line (`firstLine` is `None` when the
   * file cannot be read), otherwise bash.
   */
  function DetectInterpreter(suffix: string, firstLine: Option<string>): (r: string)
    ensures suffix == ".py" ==> r == "python3"
    ensures suffix == ".sh" || suffix == ".bash" ==> r == "bash"
    ensures suffix == ".zsh" ==> r == "zsh"
    ensures suffix == ".fish" ==> r == "fish"
    ensures |r| > 0
  {
    if suffix == ".py" then "python3"
    else if suffix in [".sh", ".bash"] then "bash"
    else if suffix == ".zsh" then "zsh"
    else if suffix == ".fish" then "fish"
    else ShebangInterpreter(firstLine)
  }

  predicate KnownSuffix(suffix: string) {
    suffix in [".py", ".sh", ".bash", ".zsh", ".fish"]
  }

  function ShebangInterpreter(firstLine: Option<string>): (r: string)
    ensures |r| > 0
  {
    match firstLine
    case None => "bash"
    case Some(raw) => InterpreterFromLine(Strings.Strip(raw))
  }

  /** The interpreter named by an already stripped first line. */
  function InterpreterFromLine(line: string): (r: string)
    ensures |r| > 0
  {
    if Strings.StartsWith(line, "#!") then
      match Strings.FirstWord(line[2..])
      case None => "bash"    // `#!` alone: the IndexError is swallowed
      case Some(w) => w
    else "bash"
  }

  /** For an unknown suffix, `#!<program> <args>` selects `<program>`. */
  lemma {:induction false} ShebangSelectsProgram(suffix: string, program: string, args: string)
    requires !KnownSuffix(suffix)
    requires |program| > 0 && forall k :: 0 <= k < |program| ==> !Strings.IsSpace(program[k])
    requires args == [] || (Strings.IsSpace(args[0]) && !Strings.IsSpace(args[|args| - 1]))
    ensures DetectInterpreter(suffix, Some("#!" + program + args)) == program
  {
    ShebangNamesProgram("#!" + program + args, program, args);
  }

  lemma {:induction false} ShebangNamesProgram(line: string, program: string, args: string)
    requires line == "#!" + program + args
    requires |program| > 0 && forall k :: 0 <= k < |program| ==> !Strings.IsSpace(program[k])
    requires args == [] || (Strings.IsSpace(args[0]) && !Strings.IsSpace(args[|args| - 1]))
    ensures ShebangInterpreter(Some(line)) == program
  {
    ProgramIsFirstWord(program, args);
    assert line == "#!" + (program + args) by { SplitShebang(line, program, args); }
    CleanShebangNamesProgram(line, program, args);
  }

  lemma {:induction false} ProgramIsFirstWord(program: string, args: string)
    requires |program| > 0 && forall k :: 0 <= k < |program| ==> !Strings.IsSpace(program[k])
    requires args == [] || Strings.IsSpace(args[0])
    ensures Strings.FirstWord(program + args) == Some(program)
    ensures !Strings.IsSpace(program[|program| - 1])
  {
    Strings.FirstWordOf(program, args);
  }

  lemma {:induction false} SplitShebang(line: string, program: string, args: string)
    requires line == "#!" + program + args
    ensures line == "#!" + (program + args)
  {
  }

  lemma {:induction false} CleanShebangNamesProgram(line: string, program: string, args: string)
    requires line == "#!" + (program + args)
    requires |program| > 0 && !Strings.IsSpace(program[|program| - 1])
    requires args == [] || !Strings.IsSpace(args[|args| - 1])
    requires Strings.FirstWord(program + args) == Some(program)
    ensures ShebangInterpreter(Some(line)) == program
  {
    ShebangEndsClean(line, program, args);
    StripOfShebang(line);
    StrippedShebang(line, program + args, program);
  }

  lemma {:induction false} ShebangEndsClean(line: string, program: string, args: string)
    requires line == "#!" + (program + args)
    requires |program| > 0 && !Strings.IsSpace(program[|program| - 1])
    requires args == [] || !Strings.IsSpace(args[|args| - 1])
    ensures |line| > 0 && line[0] == '#' && !Strings.IsSpace(line[|line| - 1])
  {
    assert line[|line| - 1] == if args == [] then program[|program| - 1] else args[|args| - 1];
  }

  lemma {:induction false} StripOfShebang(line: string)
    requires |line| > 0 && line[0] == '#' && !Strings.IsSpace(line[|line| - 1])
    ensures Strings.Strip(line) == line
  {
    Strings.StripUnchanged(line);
  }

  lemma {:induction false} StrippedShebang(line: string, rest: string, program: string)
    requires Strings.Strip(line) == line && line == "#!" + rest
    requires Strings.FirstWord(rest) == Some(program)
    ensures ShebangInterpreter(Some(line)) == program
  {
    ShebangLine(rest, program);
  }

  lemma {:induction false} ShebangLine(rest: string, program: string)
    requires Strings.FirstWord(rest) == Some(program)
    ensures InterpreterFromLine("#!" + rest) == program
  {
    var line := "#!" + rest;
    assert line[..2] == "#!";
    assert line[2..] == rest;
  }

  /** A first line that is not a shebang falls back to bash. */
  lemma {:induction false} NoShebangMeansBash(suffix: string, line: string)
    requires !KnownSuffix(suffix)
    requires line == [] || (line[0] != '#' && !Strings.IsSpace(line[0]) && !Strings.IsSpace(line[|line| - 1]))
    ensures DetectInterpreter(suffix, Some(line)) == "bash"
  {
    Strings.StripUnchanged(line);
    StrippedPlainLine(line);
  }

  lemma {:induction false} StrippedPlainLine(line: string)
    requires Strings.Strip(line) == line
    requires line == [] || line[0] != '#'
    ensures ShebangInterpreter(Some(line)) == "bash"
  {
    NotShebang(line);
    assert InterpreterFromLine(line) == "bash";
  }

  lemma {:induction false} NotShebang(line: string)
    requires line == [] || line[0] != '#'
    ensures !Strings.StartsWith(line, "#!")
  {
    if |line| >= 2 {
      assert line[..2][0] == line[0];
    }
  }

  const HeaderLines: nat := 20
  const PluginTag: string := "# PLUGIN:"

  /** How the header loop treats one line. */
  datatype LineKind =
    | Tag(key: string, value: string)   // `# PLUGIN: key: value`
    | Malformed                         // `# PLUGIN:` without a second colon: ValueError
    | Comment                           // any other line starting with `#`
    | Code                              // the loop breaks here

  /** A raw header line, classified once stripped. */
  function Classify(raw: string): LineKind {
    ClassifyStripped(Strings.Strip(raw))
  }

  function ClassifyStripped(line: string): LineKind {
    if Strings.StartsWith(line, PluginTag) then TagBody(Strings.Strip(line[|PluginTag|..]))
    else if !Strings.StartsWith(line, "#") then Code
    else Comment
  }

  /** What follows `# PLUGIN:`, stripped: the key is stripped and lower-cased, the value stripped. */
  function TagBody(body: string): LineKind {
    match Strings.SplitOnce(body, ':')
    case None => Malformed
    case Some(kv) => Tag(Strings.Lower(Strings.Strip(kv.0)), Strings.Strip(kv.1))
  }

  /**
   * The metadata loop of discover_script_plugin over the remaining header
   * lines, already classified, from the metadata gathered so far: `None`
   * when it raises.
   */
  function ScanHeader(kinds: seq<LineKind>, acc: map<string, string>): (r: Option<map<string, string>>)
    ensures r.Some? ==> acc.Keys <= r.value.Keys
  {
    if kinds == [] then Some(acc)
    else match kinds[0]
      case Malformed => None
      case Tag(k, v) => ScanHeader(kinds[1..], acc[k := v])
      case Code => Some(acc)
      case Comment => ScanHeader(kinds[1..], acc)
  }

  /** The first twenty lines, the only ones the loop looks at. */
  function HeaderOf(lines: seq<string>): (r: seq<string>)
    ensures |r| <= HeaderLines && r <= lines
    ensures |lines| <= HeaderLines ==> r == lines
  {
    if |lines| <= HeaderLines then lines else lines[..HeaderLines]
  }

  function Kinds(lines: seq<string>): (r: seq<LineKind>)
    ensures |r| == |lines| && forall k :: 0 <= k < |lines| ==> r[k] == Classify(lines[k])
  {
    seq(|lines|, k requires 0 <= k < |lines| => Classify(lines[k]))
  }

  /** The header metadata of a script's lines. */
  function HeaderMetadata(lines: seq<string>): Option<map<string, string>> {
    ScanHeader(Kinds(HeaderOf(lines)), map[])
  }

  /** Nothing after the first non-comment line is read. */
  lemma {:induction false} ScanStopsAtCode(pre: seq<LineKind>, post: seq<LineKind>, acc: map<string, string>)
    requires forall k :: 0 <= k < |pre| ==> !pre[k].Code?
    ensures ScanHeader(pre + [Code] + post, acc) == ScanHeader(pre, acc)
    decreases |pre|
  {
    var all := pre + [Code] + post;
    if pre == [] {
      assert all[0] == Code;
    } else {
      assert all[0] == pre[0];
      assert all[1..] == pre[1..] + [Code] + post;
      match pre[0]
      case Malformed =>
      case Tag(k, v) => ScanStopsAtCode(pre[1..], post, acc[k := v]);
      case Comment => ScanStopsAtCode(pre[1..], post, acc);
    }
  }

  /**
   * Scanning comment lines and then more lines is scanning the second part
   * from where the first left off, so a later key overwrites an earlier one.
   */
  lemma {:induction false} ScanAppend(pre: seq<LineKind>, post: seq<LineKind>, acc: map<string, string>)
    requires forall k :: 0 <= k < |pre| ==> !pre[k].Code?
    ensures ScanHeader(pre + post, acc) == match ScanHeader(pre, acc) case None => None case Some(m) => ScanHeader(post, m)
    decreases |pre|
  {
    if pre != [] {
      assert (pre + post)[0] == pre[0];
      assert (pre + post)[1..] == pre[1..] + post;
      match pre[0]
      case Malformed =>
      case Tag(k, v) => ScanAppend(pre[1..], post, acc[k := v]);
      case Comment => ScanAppend(pre[1..], post, acc);
    } else {
      assert pre + post == post;
    }
  }

  /** The later of two tags for the same key wins. */
  lemma {:induction false} LaterTagWins(k: string, v1: string, v2: string, acc: map<string, string>)
    ensures ScanHeader([Tag(k, v1), Tag(k, v2)], acc) == Some(acc[k := v2])
  {
    var kinds := [Tag(k, v1), Tag(k, v2)];
    assert kinds[1..] == [Tag(k, v2)];
    assert [Tag(k, v2)][1..] == [];
    calc {
      ScanHeader(kinds, acc);
      ScanHeader([Tag(k, v2)], acc[k := v1]);
      ScanHeader([], acc[k := v1][k := v2]);
      { assert acc[k := v1][k := v2] == acc[k := v2]; }
      Some(acc[k := v2]);
    }
  }

  /** `# PLUGIN: key: value` is a tag line for the lower-cased key. */
  lemma {:induction false} ClassifyTagLine(key: string, value: string)
    requires |key| > 0 && ':' !in key && !Strings.IsSpace(key[0]) && !Strings.IsSpace(key[|key| - 1])
    requires |value| > 0 && !Strings.IsSpace(value[0]) && !Strings.IsSpace(value[|value| - 1])
    ensures Classify(PluginTag + " " + key + ": " + value) == Tag(Strings.Lower(key), value)
  {
    TagLineClassified(PluginTag + " " + key + ": " + value, key, value);
  }

  lemma {:induction false} TagLineClassified(line: string, key: string, value: string)
    requires line == PluginTag + " " + key + ": " + value
    requires |key| > 0 && ':' !in key && !Strings.IsSpace(key[0]) && !Strings.IsSpace(key[|key| - 1])
    requires |value| > 0 && !Strings.IsSpace(value[0]) && !Strings.IsSpace(value[|value| - 1])
    ensures Classify(line) == Tag(Strings.Lower(key), value)
  {
    var body := key + ": " + value;
    TagLineBody(line, key, value);
    TagLineStripped(line, body);
    TagBodyOf(body, key, value);
  }

  lemma {:induction false} TagLineBody(line: string, key: string, value: string)
    requires line == PluginTag + " " + key + ": " + value && |key| > 0 && |value| > 0
    ensures line == PluginTag + " " + (key + ": " + value)
    ensures (key + ": " + value)[0] == key[0]
    ensures (key + ": " + value)[|key + ": " + value| - 1] == value[|value| - 1]
  {
  }

  /** A tag line without a second colon is malformed. */
  lemma {:induction false} ClassifyMalformedLine(text: string)
    requires ':' !in text && |text| > 0 && !Strings.IsSpace(text[0]) && !Strings.IsSpace(text[|text| - 1])
    ensures Classify(PluginTag + " " + text) == Malformed
  {
    TagLineStripped(PluginTag + " " + text, text);
  }

  /** A clean `# PLUGIN: <body>` line is classified by its body. */
  lemma {:induction false} TagLineStripped(line: string, body: string)
    requires line == PluginTag + " " + body
    requires |body| > 0 && !Strings.IsSpace(body[0]) && !Strings.IsSpace(body[|body| - 1])
    ensures Classify(line) == TagBody(body)
  {
    TagLineShape(line, body);
    StripKeepsLine(line);
    ClassifiedByBody(line, body);
  }

  lemma {:induction false} TagLineShape(line: string, body: string)
    requires line == PluginTag + " " + body && |body| > 0
    ensures line[0] == '#' && line[|line| - 1] == body[|body| - 1]
    ensures Strings.StartsWith(line, PluginTag) && line[|PluginTag|..] == " " + body
  {
    assert line[..|PluginTag|] == PluginTag;
  }

  lemma {:induction false} ClassifiedByBody(line: string, body: string)
    requires Strings.StartsWith(line, PluginTag) && line[|PluginTag|..] == " " + body
    requires |body| > 0 && !Strings.IsSpace(body[0]) && !Strings.IsSpace(body[|body| - 1])
    ensures ClassifyStripped(line) == TagBody(body)
  {
    StripSpaceBefore(body);
  }

  lemma {:induction false} StripKeepsLine(line: string)
    requires |line| > 0 && line[0] == '#' && !Strings.IsSpace(line[|line| - 1])
    ensures Classify(line) == ClassifyStripped(line)
  {
    Strings.StripUnchanged(line);
  }

  lemma {:induction false} TagBodyOf(body: string, key: string, value: string)
    requires body == key + ": " + value
    requires |key| > 0 && ':' !in key && !Strings.IsSpace(key[0]) && !Strings.IsSpace(key[|key| - 1])
    requires |value| > 0 && !Strings.IsSpace(value[0]) && !Strings.IsSpace(value[|value| - 1])
    ensures TagBody(body) == Tag(Strings.Lower(key), value)
  {
    assert body == key + [':'] + (" " + value);
    Strings.SplitOnceAt(key, ':', " " + value);
    Strings.StripUnchanged(key);
    StripSpaceBefore(value);
  }

  lemma {:induction false} StripSpaceBefore(t: string)
    requires |t| > 0 && !Strings.IsSpace(t[0]) && !Strings.IsSpace(t[|t| - 1])
    ensures Strings.Strip(" " + t) == t
  {
    assert (" " + t)[1..] == t;
    assert Strings.TrimStart(" " + t) == Strings.TrimStart(t);
    Strings.StripUnchanged(t);
  }

  /** The header loop of discover_script_plugin, with its `break`. */
  method ReadHeader(lines: seq<string>) returns (metadata: Option<map<string, string>>)
    ensures metadata == HeaderMetadata(lines)
  {
    var header := HeaderOf(lines);
    ghost var kinds := Kinds(header);
    var acc: map<string, string> := map[];
    var i := 0;
    while i < |header|
      invariant 0 <= i <= |header|
      invariant ScanHeader(kinds, map[]) == ScanHeader(kinds[i..], acc)
    {
      assert kinds[i..][0] == kinds[i] && kinds[i..][1..] == kinds[i + 1..];
      var kind := Classify(header[i]);
      if kind.Malformed? {
        return None;
      } else if kind.Code? {
        break;
      } else if kind.Tag? {
        acc := acc[kind.key := kind.value];
      }
      i := i + 1;
    }
    metadata := Some(acc);
  }

  /**
   * discover_script_plugin: a descriptor when the header names the plugin,
   * with defaults for the other keys; `None` when the file cannot be read
   * (`lines` is `None`), the header is malformed or has no `name`.
   */
  function DiscoverScriptPlugin(lines: Option<seq<string>>, path: string): (r: Option<PluginInfo>)
    ensures r.Some? <==> lines.Some? && HeaderMetadata(lines.value).Some? && "name" in HeaderMetadata(lines.value).value
    ensures r.Some? ==>
              var m := HeaderMetadata(lines.value).value;
              && r.value.name == m["name"]
              && r.value.version == (if "version" in m then m["version"] else "1.0")
              && r.value.description == (if "description" in m then m["description"] else "")
              && r.value.author == (if "author" in m then m["author"] else "Unknown")
              && r.value.pluginType == "script" && r.value.entryPoint == path
              && r.value.dependencies == [] && r.value.configSchema == map[] && r.value.enabled
  {
    if lines.None? then None
    else match HeaderMetadata(lines.value)
      case None => None
      case Some(m) =>
        if "name" !in m then None
        else Some(MakePluginInfo(m["name"],
                                 if "version" in m then m["version"] else "1.0",
                                 if "description" in m then m["description"] else "",
                                 if "author" in m then m["author"] else "Unknown",
                                 "script", path, None, None, true))
  }

  // ---------------------------------------------------------------------
  // Plugin objects and the registry
  // ---------------------------------------------------------------------

  type Context = map<string, Json>

  /** What `initialize()` does. */
  datatype InitOutcome = Initialized | InitFailed | InitRaised

  /** Whether the plugin is a HookPlugin, and what get_supported_hooks() does. */
  datatype HookSupport = NotHook | Supports(hooks: seq<string>) | HooksRaise

  /**
   * How a plugin's execute_hook ends. The context dict is passed by
   * reference, so a plugin that raises leaves behind whatever it changed
   * in that dict before the exception.
   */
  datatype HookRun = Returned(next: Context) | Raised(leftBehind: Context)

  /** A Python plugin instance as the registry sees it. */
  datatype PythonPlugin = PythonPlugin(
    init: InitOutcome,
    support: HookSupport,
    info: PluginInfo,                                  // what get_info() returns
    run: (string, Context) -> HookRun)                 // execute_hook

  datatype LoadedPlugin =
    | Script(info: PluginInfo, interpreter: string)
    | Python(plugin: PythonPlugin)

  predicate IsHookPlugin(p: LoadedPlugin) {
    p.Python? && !p.plugin.support.NotHook?
  }

  /** What loading a descriptor finds on disk. */
  datatype LoadSource = LoadSource(
    python: Option<PythonPlugin>,   // load_python_plugin's result
    scriptExists: bool,
    scriptSuffix: string,
    scriptFirstLine: Option<string>)

  /** The number of times `x` occurs in `xs`. */
  function Count(xs: seq<string>, x: string): (n: nat)
    ensures n <= |xs|
    ensures n == 0 <==> x !in xs
  {
    if xs == [] then 0 else (if xs[0] == x then 1 else 0) + Count(xs[1..], x)
  }

  function Repeat(x: string, n: nat): (r: seq<string>)
    ensures |r| == n && forall k :: 0 <= k < n ==> r[k] == x
  {
    if n == 0 then [] else [x] + Repeat(x, n - 1)
  }

  /**
   * The hook registration loop of load_plugin: every supported hook gets
   * a list if it had none, and the plugin's name is appended to it once per
   * time the hook is listed.
   */
  function Register(hooks: map<string, seq<string>>, supported: seq<string>, name: string): (r: map<string, seq<string>>)
    decreases |supported|
  {
    if supported == [] then hooks
    else
      var h := supported[0];
      Register(hooks[h := (if h in hooks then hooks[h] else []) + [name]], supported[1..], name)
  }

  lemma {:induction false} RegisterEffect(hooks: map<string, seq<string>>, supported: seq<string>, name: string)
    ensures forall h :: h in Register(hooks, supported, name) <==> h in hooks || h in supported
    ensures forall h :: h in Register(hooks, supported, name) ==>
              Register(hooks, supported, name)[h] == (if h in hooks then hooks[h] else []) + Repeat(name, Count(supported, h))
    decreases |supported|
  {
    if supported != [] {
      var h0 := supported[0];
      var next := hooks[h0 := (if h0 in hooks then hooks[h0] else []) + [name]];
      RegisterEffect(next, supported[1..], name);
      forall h | h in Register(hooks, supported, name)
        ensures Register(hooks, supported, name)[h] == (if h in hooks then hooks[h] else []) + Repeat(name, Count(supported, h))
      {
        if h == h0 {
          assert Repeat(name, Count(supported, h)) == [name] + Repeat(name, Count(supported[1..], h));
        }
      }
    }
  }

  /** The position of the first occurrence of `x`. */
  function IndexOf(xs: seq<string>, x: string): (i: nat)
    requires x in xs
    ensures i < |xs| && xs[i] == x && x !in xs[..i]
  {
    if xs[0] == x then 0
    else
      var j := IndexOf(xs[1..], x);
      assert xs[..j + 1] == [xs[0]] + xs[1..][..j];
      j + 1
  }

  /** list.remove(x) when x is present, the list unchanged otherwise. */
  function RemoveFirst(xs: seq<string>, x: string): seq<string> {
    if x in xs then xs[..IndexOf(xs, x)] + xs[IndexOf(xs, x) + 1..] else xs
  }

  /** The unload loop: the first occurrence of the name leaves every list; no hook key goes. */
  function UnregisterAll(hooks: map<string, seq<string>>, name: string): (r: map<string, seq<string>>)
    ensures r.Keys == hooks.Keys
    ensures forall h :: h in hooks ==> r[h] == RemoveFirst(hooks[h], name)
  {
    map h | h in hooks :: RemoveFirst(hooks[h], name)
  }

  /** Removing the name from a list it was appended to at most once gives the list back. */
  lemma {:induction false} RemoveFirstAppended(xs: seq<string>, name: string, n: nat)
    requires name !in xs && n <= 1
    ensures RemoveFirst(xs + Repeat(name, n), name) == xs
  {
    var ys := xs + Repeat(name, n);
    if n == 1 {
      assert ys[|xs|] == name && ys[..|xs|] == xs;
      assert IndexOf(ys, name) == |xs|;
    } else {
      assert ys == xs;
    }
  }

  /** The registry state: `loaded_plugins` and `hooks`. */
  datatype Registry = Registry(loaded: map<string, LoadedPlugin>, hooks: map<string, seq<string>>)

  /** load_plugin as a transition of the registry, with its answer. */
  function Load(reg: Registry, info: PluginInfo, source: LoadSource): (Registry, bool) {
    if info.name in reg.loaded then (reg, true)
    else if !info.enabled then (reg, false)
    else if info.pluginType == "python" then
      match source.python
      case None => (reg, false)
      case Some(p) =>
        if !p.init.Initialized? then (reg, false)
        else match p.support
          case HooksRaise => (reg, false)
          case NotHook => (Registry(reg.loaded[info.name := Python(p)], reg.hooks), true)
          case Supports(hs) => (Registry(reg.loaded[info.name := Python(p)], Register(reg.hooks, hs, info.name)), true)
    else if info.pluginType == "script" then
      if !source.scriptExists then (reg, false)
      else
        var interpreter := DetectInterpreter(source.scriptSuffix, source.scriptFirstLine);
        (Registry(reg.loaded[info.name := Script(info, interpreter)], reg.hooks), true)
    else (reg, false)
  }

  /** unload_plugin as a transition of the registry, with its answer. */
  function Unload(reg: Registry, name: string): (Registry, bool) {
    if name !in reg.loaded then (reg, false)
    else (Registry(reg.loaded - {name}, UnregisterAll(reg.hooks, name)), true)
  }

  /** load_plugin answers True exactly when the name is (or already was) loaded afterwards; a False leaves everything as it was. */
  lemma {:induction false} LoadAnswer(reg: Registry, info: PluginInfo, source: LoadSource)
    ensures Load(reg, info, source).1 <==> info.name in Load(reg, info, source).0.loaded
    ensures !Load(reg, info, source).1 ==> Load(reg, info, source).0 == reg
    ensures info.name in reg.loaded ==> Load(reg, info, source) == (reg, true)
    ensures Load(reg, info, source).0.loaded.Keys == reg.loaded.Keys + (if Load(reg, info, source).1 then {info.name} else {})
  {
  }

  /** Only a loaded Python plugin whose initialize succeeded gains hook entries. */
  lemma {:induction false} LoadRegistersHooks(reg: Registry, info: PluginInfo, source: LoadSource)
    requires info.name !in reg.loaded && info.enabled && info.pluginType == "python"
    requires source.python.Some? && source.python.value.init.Initialized? && source.python.value.support.Supports?
    ensures var hs := source.python.value.support.hooks;
            var after := Load(reg, info, source).0.hooks;
            && Load(reg, info, source).1
            && (forall k :: 0 <= k < |hs| ==> hs[k] in after && info.name in after[hs[k]])
            && (forall h :: h in reg.hooks ==> h in after && reg.hooks[h] <= after[h])
  {
    var hs := source.python.value.support.hooks;
    RegisterEffect(reg.hooks, hs, info.name);
    var after := Register(reg.hooks, hs, info.name);
    forall k | 0 <= k < |hs| ensures hs[k] in after && info.name in after[hs[k]] {
      assert Count(hs, hs[k]) > 0 by {
        assert hs[k] in hs;
      }
      var before := if hs[k] in reg.hooks then reg.hooks[hs[k]] else [];
      assert after[hs[k]][|before|] == info.name;
    }
  }

  /** A name never registered anywhere. */
  predicate Fresh(reg: Registry, name: string) {
    name !in reg.loaded && forall h :: h in reg.hooks ==> name !in reg.hooks[h]
  }

  predicate NoDuplicates(xs: seq<string>) {
    forall i, j :: 0 <= i < j < |xs| ==> xs[i] != xs[j]
  }

  lemma {:induction false} CountNoDuplicates(xs: seq<string>, x: string)
    requires NoDuplicates(xs)
    ensures Count(xs, x) <= 1
    decreases |xs|
  {
    if xs != [] {
      CountNoDuplicates(xs[1..], x);
      if xs[0] == x {
        assert x !in xs[1..] by {
          forall k | 0 <= k < |xs[1..]| ensures xs[1..][k] != x {
            assert xs[1..][k] == xs[k + 1];
          }
        }
      }
    }
  }

  /**
   * Unloading a freshly loaded plugin restores `loaded_plugins` and every
   * hook list; hooks created by the load stay, with empty lists.
   */
  lemma {:induction false} UnloadUndoesLoad(reg: Registry, info: PluginInfo, source: LoadSource)
    requires Fresh(reg, info.name)
    requires source.python.Some? && source.python.value.support.Supports? ==> NoDuplicates(source.python.value.support.hooks)
    requires Load(reg, info, source).1
    ensures var back := Unload(Load(reg, info, source).0, info.name);
            && back.1
            && back.0.loaded == reg.loaded
            && reg.hooks.Keys <= back.0.hooks.Keys
            && (forall h :: h in back.0.hooks ==> back.0.hooks[h] == (if h in reg.hooks then reg.hooks[h] else []))
  {
    var (mid, _) := Load(reg, info, source);
    var back := Unload(mid, info.name);
    assert mid.loaded - {info.name} == reg.loaded;
    if info.pluginType == "python" && source.python.value.support.Supports? {
      var hs := source.python.value.support.hooks;
      RegisterEffect(reg.hooks, hs, info.name);
      forall h | h in mid.hooks
        ensures RemoveFirst(mid.hooks[h], info.name) == (if h in reg.hooks then reg.hooks[h] else [])
      {
        CountNoDuplicates(hs, h);
        RemoveFirstAppended(if h in reg.hooks then reg.hooks[h] else [], info.name, Count(hs, h));
      }
    } else {
      assert mid.hooks == reg.hooks;
      forall h | h in mid.hooks ensures RemoveFirst(mid.hooks[h], info.name) == reg.hooks[h] {
      }
    }
  }

  /** What one registered name contributes to a hook run. */
  function HookStep(loaded: map<string, LoadedPlugin>, hookName: string, name: string, context: Context): Context {
    if name !in loaded || !IsHookPlugin(loaded[name]) then context
    else match loaded[name].plugin.run(hookName, context)
      case Returned(next) => next
      case Raised(leftBehind) => leftBehind   // logged; the dict keeps the plugin's changes
  }

  /** The context after the registered names, in order, have had their turn. */
  function HookFold(loaded: map<string, LoadedPlugin>, hookName: string, names: seq<string>, context: Context): Context
    decreases |names|
  {
    if names == [] then context
    else HookFold(loaded, hookName, names[1..], HookStep(loaded, hookName, names[0], context))
  }

  /** Running a hook over two runs of names is running it over each in turn. */
  lemma {:induction false} HookFoldAppend(loaded: map<string, LoadedPlugin>, hookName: string, a: seq<string>, b: seq<string>, context: Context)
    ensures HookFold(loaded, hookName, a + b, context) == HookFold(loaded, hookName, b, HookFold(loaded, hookName, a, context))
    decreases |a|
  {
    if a != [] {
      assert (a + b)[0] == a[0] && (a + b)[1..] == a[1..] + b;
      HookFoldAppend(loaded, hookName, a[1..], b, HookStep(loaded, hookName, a[0], context));
    } else {
      assert a + b == b;
    }
  }

  /** The names that actually run: loaded hook plugins, in registration order. */
  function Runnable(loaded: map<string, LoadedPlugin>, names: seq<string>): (r: seq<string>)
    ensures |r| <= |names|
    ensures forall k :: 0 <= k < |r| ==> r[k] in loaded && IsHookPlugin(loaded[r[k]])
  {
    if names == [] then []
    else if names[0] in loaded && IsHookPlugin(loaded[names[0]]) then [names[0]] + Runnable(loaded, names[1..])
    else Runnable(loaded, names[1..])
  }

  /** Unloaded names and plugins that are not hook plugins have no effect on the context. */
  lemma {:induction false} HookFoldSkips(loaded: map<string, LoadedPlugin>, hookName: string, names: seq<string>, context: Context)
    ensures HookFold(loaded, hookName, names, context) == HookFold(loaded, hookName, Runnable(loaded, names), context)
    decreases |names|
  {
    if names != [] {
      HookFoldSkips(loaded, hookName, names[1..], HookStep(loaded, hookName, names[0], context));
      if names[0] in loaded && IsHookPlugin(loaded[names[0]]) {
        assert ([names[0]] + Runnable(loaded, names[1..]))[1..] == Runnable(loaded, names[1..]);
      }
    }
  }

  /** execute_hook as a function: an unregistered hook returns the context untouched. */
  function RunHook(reg: Registry, hookName: string, context: Option<Context>): Context {
    var start := if context.None? then map[] else context.value;
    if hookName !in reg.hooks then start else HookFold(reg.loaded, hookName, reg.hooks[hookName], start)
  }

  /** One entry of list_plugins' `loaded_plugins`. */
  datatype Listing = Listing(pluginType: string, version: string, description: string, author: string, interpreter: Option<string>)

  /** What list_plugins returns (the order of `available_hooks` is not modelled). */
  datatype PluginList = PluginList(plugins: map<string, Listing>, availableHooks: set<string>, pluginCount: nat)

  /** The PluginInfo a listing reports: get_info() for a Python plugin, the discovered info for a script. */
  function InfoOf(p: LoadedPlugin): PluginInfo {
    match p
    case Python(q) => q.info
    case Script(info, _) => info
  }

  function ListingOf(p: LoadedPlugin): Listing {
    match p
    case Python(q) => Listing("python", q.info.version, q.info.description, q.info.author, None)
    case Script(info, interpreter) => Listing("script", info.version, info.description, info.author, Some(interpreter))
  }

  /** list_plugins: one listing per loaded plugin, the hook names and the count. */
  function ListPlugins(reg: Registry): (r: PluginList)
    ensures r.plugins.Keys == reg.loaded.Keys && r.pluginCount == |reg.loaded|
    ensures r.availableHooks == reg.hooks.Keys
    ensures forall n :: n in reg.loaded ==>
              (r.plugins[n].pluginType == "script" <==> reg.loaded[n].Script?)
              && (r.plugins[n].interpreter.Some? <==> reg.loaded[n].Script?)
    ensures forall n :: n in reg.loaded ==>
              r.plugins[n].version == InfoOf(reg.loaded[n]).version
              && r.plugins[n].description == InfoOf(reg.loaded[n]).description
              && r.plugins[n].author == InfoOf(reg.loaded[n]).author
    ensures forall n :: n in reg.loaded && reg.loaded[n].Python? ==> r.plugins[n].pluginType == "python"
    ensures forall n :: n in reg.loaded && reg.loaded[n].Script? ==>
              r.plugins[n].interpreter == Some(reg.loaded[n].interpreter)
  {
    PluginList(map n | n in reg.loaded :: ListingOf(reg.loaded[n]), reg.hooks.Keys, |reg.loaded|)
  }

  /** The number of successful loads when descriptors are loaded in order. */
  function LoadAll(reg: Registry, batch: seq<(PluginInfo, LoadSource)>): (Registry, nat)
    decreases |batch|
  {
    if batch == [] then (reg, 0)
    else
      var (next, ok) := Load(reg, batch[0].0, batch[0].1);
      var (final, n) := LoadAll(next, batch[1..]);
      (final, n + if ok then 1 else 0)
  }

  /**
   * load_all_plugins counts at most one load per descriptor, never unloads
   * anything, adds at most one plugin per counted load, and a count of zero
   * means nothing changed.
   */
  lemma {:induction false} LoadAllCount(reg: Registry, batch: seq<(PluginInfo, LoadSource)>)
    ensures LoadAll(reg, batch).1 <= |batch|
    ensures reg.loaded.Keys <= LoadAll(reg, batch).0.loaded.Keys
    ensures |LoadAll(reg, batch).0.loaded.Keys| <= |reg.loaded.Keys| + LoadAll(reg, batch).1
    ensures LoadAll(reg, batch).1 == 0 ==> LoadAll(reg, batch).0 == reg
    decreases |batch|
  {
    if batch != [] {
      var (next, ok) := Load(reg, batch[0].0, batch[0].1);
      LoadAnswer(reg, batch[0].0, batch[0].1);
      LoadAllCount(next, batch[1..]);
      assert |next.loaded.Keys| <= |reg.loaded.Keys| + (if ok then 1 else 0) by {
        if ok {
          assert next.loaded.Keys == reg.loaded.Keys + {batch[0].0.name};
        }
      }
    }
  }

  /** The plugin manager: its `loaded_plugins` and `hooks`, updated in place. */
  class PluginManager {
    var loaded: map<string, LoadedPlugin>
    var hooks: map<string, seq<string>>

    constructor ()
      ensures loaded == map[] && hooks == map[]
    {
      loaded := map[];
      hooks := map[];
    }

    function State(): Registry
      reads this
    {
      Registry(loaded, hooks)
    }

    /** load_plugin. */
    method LoadPlugin(info: PluginInfo, source: LoadSource) returns (ok: bool)
      modifies this
      ensures (State(), ok) == Load(old(State()), info, source)
    {
      if info.name in loaded {
        return true;
      }
      if !info.enabled {
        return false;
      }
      var plugin: LoadedPlugin;
      if info.pluginType == "python" {
        if source.python.None? {
          return false;
        }
        var p := source.python.value;
        if !p.init.Initialized? || p.support.HooksRaise? {
          return false;
        }
        if p.support.Supports? {
          var hs := p.support.hooks;
          var table := hooks;
          var i := 0;
          while i < |hs|
            invariant 0 <= i <= |hs|
            invariant Register(table, hs[i..], info.name) == Register(hooks, hs, info.name)
          {
            assert hs[i..][1..] == hs[i + 1..];
            var h := hs[i];
            var list := if h in table then table[h] else [];
            table := table[h := list + [info.name]];
            i := i + 1;
          }
          assert hs[i..] == [];
          hooks := table;
        }
        plugin := Python(p);
      } else if info.pluginType == "script" {
        if !source.scriptExists {
          return false;
        }
        plugin := Script(info, DetectInterpreter(source.scriptSuffix, source.scriptFirstLine));
      } else {
        return false;
      }
      loaded := loaded[info.name := plugin];
      ok := true;
    }

    /** unload_plugin. */
    method UnloadPlugin(name: string) returns (ok: bool)
      modifies this
      ensures (State(), ok) == Unload(old(State()), name)
    {
      if name !in loaded {
        return false;
      }
      var table := hooks;
      var pending := table.Keys;
      while pending != {}
        invariant pending <= table.Keys == hooks.Keys
        invariant forall h :: h in table ==> table[h] == if h in pending then hooks[h] else RemoveFirst(hooks[h], name)
        decreases pending
      {
        var h :| h in pending;
        if name in table[h] {
          table := table[h := RemoveFirst(table[h], name)];
        }
        pending := pending - {h};
      }
      assert table == UnregisterAll(hooks, name);
      hooks := table;
      loaded := loaded - {name};
      ok := true;
    }

    /** execute_hook: thread the context through the hook's list, in order. */
    method ExecuteHook(hookName: string, context: Option<Context>) returns (r: Context)
      ensures r == RunHook(State(), hookName, context)
    {
      r := if context.None? then map[] else context.value;
      if hookName !in hooks {
        return;
      }
      var names := hooks[hookName];
      var i := 0;
      while i < |names|
        invariant 0 <= i <= |names|
        invariant HookFold(loaded, hookName, names, if context.None? then map[] else context.value)
               == HookFold(loaded, hookName, names[i..], r)
      {
        assert names[i..][1..] == names[i + 1..];
        var name := names[i];
        if name in loaded {
          var plugin := loaded[name];
          if IsHookPlugin(plugin) {
            var outcome := plugin.plugin.run(hookName, r);
            r := if outcome.Returned? then outcome.next else outcome.leftBehind;
          }
        }
        i := i + 1;
      }
    }

    /** load_all_plugins over the discovered descriptors, in order. */
    method LoadAllPlugins(batch: seq<(PluginInfo, LoadSource)>) returns (count: nat)
      modifies this
      ensures (State(), count) == LoadAll(old(State()), batch)
    {
      count := 0;
      var i := 0;
      while i < |batch|
        invariant 0 <= i <= |batch|
        invariant LoadAll(old(State()), batch) == (LoadAll(State(), batch[i..]).0, count + LoadAll(State(), batch[i..]).1)
      {
        assert batch[i..][0] == batch[i] && batch[i..][1..] == batch[i + 1..];
        var ok := LoadPlugin(batch[i].0, batch[i].1);
        if ok {
          count := count + 1;
        }
        i := i + 1;
      }
    }
  }
}
