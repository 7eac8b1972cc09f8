/** The repository handle: its path, initialisation and bare flags, its
    option layers, the parser for `git config --list` output, the lazily
    filled cache of command objects, and the execution primitive seen from
    outside (the process itself belongs to the environment). */
module CastGit {
  import opened PhpValues
  import opened PhpStrings

  /** Option keys Cast reads for the executable and its environment. */
  const GitBin := "cast.git_bin"
  const GitEnv := "cast.git_env"
  /** The namespace command class names are resolved in. */
  const CommandNamespace := "\\Cast\\Git\\Commands\\"
  /** The command whose output `LoadConfig` parses. */
  const ConfigList := "config --list"

  datatype Error =
    | InvalidRepository(path: string)   // setPath on a path that is not a repository
    | Uninitialized                     // isBare before the handle is initialized
    | UnknownCommand(className: string) // no command class for the name
    | SpawnFailed(command: string)      // the process could not be started

  datatype Result<+T> = Ok(value: T) | Err(error: Error)

  /** The outcome of an operation that returns nothing but may throw. */
  datatype Outcome = Pass | Fail(error: Error)

  /** What the repository check can see of the filesystem: the set of
      readable file paths. */
  datatype FileSystem = FileSystem(readable: set<string>)

  /** A path is a repository when `<path>/.git/HEAD` (a working tree) or
      `<path>/HEAD` (a bare repository) is readable. */
  predicate IsValidRepositoryPath(fs: FileSystem, path: string)
  {
    path + "/.git/HEAD" in fs.readable || path + "/HEAD" in fs.readable
  }

  /** One process start: the command line, the working directory and the
      environment option. */
  datatype Invocation = Invocation(line: string, cwd: Option<string>, env: Value)

  /** What the environment does with an invocation: it runs it to completion,
      or the process cannot be started. */
  datatype Spawn = Spawned(code: int, stdout: string, stderr: string) | NotSpawned

  /** The process environment: every invocation has an outcome. */
  type World = Invocation -> Spawn

  /** `array($return, $output, $errors, $command, $options)`. */
  datatype ExecResult = ExecResult(code: int, stdout: string, stderr: string, command: string, options: Option<Options>)

  // ---------------------------------------------------------------------
  // Option layers

  /** Look `key` up in each layer in turn; the first layer holding it wins,
      and `default` answers when none does. */
  function Resolve(layers: seq<Options>, key: string, default: Value): Value
    decreases |layers|
  {
    if layers == [] then default
    else if key in layers[0] then layers[0][key]
    else Resolve(layers[1..], key, default)
  }

  /** The layers `getOption` consults: the call-time options when an array
      is given, then the handle's own options. */
  function Layers(call: Option<Options>, instance: Options): seq<Options>
  {
    (if call.Some? then [call.value] else []) + [instance]
  }

  /** The first layer that holds the key decides the value. */
  lemma {:induction false} ResolveFirstHolder(layers: seq<Options>, key: string, default: Value, i: nat)
    requires i < |layers| && key in layers[i]
    requires forall j :: 0 <= j < i ==> key !in layers[j]
    ensures Resolve(layers, key, default) == layers[i][key]
    decreases i
  {
    if i > 0 {
      ResolveFirstHolder(layers[1..], key, default, i - 1);
    }
  }

  /** When no layer holds the key, the default is the value. */
  lemma {:induction false} ResolveNoHolder(layers: seq<Options>, key: string, default: Value)
    requires forall j :: 0 <= j < |layers| ==> key !in layers[j]
    ensures Resolve(layers, key, default) == default
    decreases |layers|
  {
    if layers != [] {
      ResolveNoHolder(layers[1..], key, default);
    }
  }

  // ---------------------------------------------------------------------
  // `git config --list` output

  /** The lines of the listing: `explode("\n", ...)` with the last piece
      (the empty piece after the final newline) popped off. */
  function ConfigLines(output: string): (lines: seq<string>)
    ensures forall k :: 0 <= k < |lines| ==> '\n' !in lines[k]
  {
    var pieces := Explode(output, '\n');
    pieces[..|pieces| - 1]
  }

  /** The key of a config line: the text before its first `=`. */
  function LineKey(line: string): string
  {
    SplitFirst(line, '=').0
  }

  /** The value of a config line: everything after its first `=`, or null
      when the line has no `=` (PHP's `list()` on a one-element array). */
  function LineValue(line: string): Value
  {
    var (_, value) := SplitFirst(line, '=');
    if value.Some? then Str(value.value) else Null
  }

  /** The `foreach` over the lines: each line stores its value under its
      key, so a later line overwrites an earlier one with the same key. */
  function ParseConfigLines(lines: seq<string>): Options
    decreases |lines|
  {
    if lines == [] then map[]
    else
      var last := lines[|lines| - 1];
      ParseConfigLines(lines[..|lines| - 1])[LineKey(last) := LineValue(last)]
  }

  /** The parsed config of a complete listing. */
  function ParseConfigOutput(output: string): Options
  {
    ParseConfigLines(ConfigLines(output))
  }

  /** `array_merge($config, $options)`: the call-time options override the
      parsed entries. */
  function MergeConfig(config: Options, overrides: Options): (merged: Options)
    ensures merged.Keys == config.Keys + overrides.Keys
    ensures forall k :: k in overrides ==> merged[k] == overrides[k]
    ensures forall k :: k in config && k !in overrides ==> merged[k] == config[k]
  {
    config + overrides
  }

  /** The parsed config holds exactly the keys of the lines. */
  lemma {:induction false} ParseConfigKeys(lines: seq<string>, key: string)
    ensures key in ParseConfigLines(lines) <==> exists i :: 0 <= i < |lines| && LineKey(lines[i]) == key
    decreases |lines|
  {
    if lines != [] {
      var init := lines[..|lines| - 1];
      ParseConfigKeys(init, key);
      if key in ParseConfigLines(lines) && LineKey(lines[|lines| - 1]) != key {
        var i :| 0 <= i < |init| && LineKey(init[i]) == key;
        assert lines[i] == init[i];
      }
      if exists i :: 0 <= i < |lines| && LineKey(lines[i]) == key {
        var i :| 0 <= i < |lines| && LineKey(lines[i]) == key;
        if i < |init| {
          assert init[i] == lines[i];
        }
      }
    }
  }

  /** Later duplicate keys overwrite earlier ones: a key's value is that of
      the last line carrying the key. */
  lemma {:induction false} ParseConfigLastWins(lines: seq<string>, i: nat)
    requires i < |lines|
    requires forall j :: i < j < |lines| ==> LineKey(lines[j]) != LineKey(lines[i])
    ensures LineKey(lines[i]) in ParseConfigLines(lines)
    ensures ParseConfigLines(lines)[LineKey(lines[i])] == LineValue(lines[i])
    decreases |lines|
  {
    if i < |lines| - 1 {
      var init := lines[..|lines| - 1];
      assert init[i] == lines[i];
      forall j | i < j < |init| ensures LineKey(init[j]) != LineKey(init[i]) {
        assert init[j] == lines[j];
      }
      ParseConfigLastWins(init, i);
    }
  }

  /** A line splits at its first `=` only: the value keeps every later `=`. */
  lemma LineSplitsAtFirstEquals(key: string, value: string)
    requires '=' !in key
    ensures LineKey(key + "=" + value) == key
    ensures LineValue(key + "=" + value) == Str(value)
  {
    SplitFirstAt(key, value, '=');
  }

  /** A listing whose lines are `lines`, each followed by a newline, parses
      to the entries of exactly those lines (the trailing empty piece is
      the one dropped). */
  lemma {:induction false} ConfigLinesOfListing(lines: seq<string>)
    requires forall k :: 0 <= k < |lines| ==> '\n' !in lines[k]
    ensures ConfigLines(Implode(lines + [""], "\n")) == lines
  {
    var pieces := lines + [""];
    forall k | 0 <= k < |pieces| ensures '\n' !in pieces[k] {
      if k < |lines| { assert pieces[k] == lines[k]; }
    }
    ExplodeImplode(pieces, '\n');
    assert pieces[..|pieces| - 1] == lines;
  }

  /** Two lines parse to the second line's entry laid over the first's. */
  lemma ParseTwoLines(l1: string, l2: string)
    ensures ParseConfigLines([l1, l2]) == map[LineKey(l1) := LineValue(l1)][LineKey(l2) := LineValue(l2)]
  {
    assert [l1, l2][..1] == [l1];
    assert [l1][..0] == [];
    assert ParseConfigLines([l1]) == ParseConfigLines([])[LineKey(l1) := LineValue(l1)];
  }

  /** A listing of one `key=value` line parses to that one entry; the value
      may itself contain `=`. */
  lemma ParseConfigOneEntry(k: string, v: string)
    requires '=' !in k && '\n' !in k + "=" + v
    ensures ParseConfigOutput(k + "=" + v + "\n") == map[k := Str(v)]
  {
    var l := k + "=" + v;
    ConfigLinesOfListing([l]);
    assert [l] + [""] == [l, ""];
    assert [l, ""][1..] == [""];
    assert Implode([l, ""], "\n") == l + "\n" + "";
    assert l + "\n" + "" == k + "=" + v + "\n";
    LineSplitsAtFirstEquals(k, v);
    assert [l][..0] == [];
    assert ParseConfigLines([l]) == ParseConfigLines([])[LineKey(l) := LineValue(l)];
  }

  /** A listing of two `key=value` lines parses to both entries, the second
      winning when the keys are equal. */
  lemma ParseConfigTwoEntries(k1: string, v1: string, k2: string, v2: string)
    requires '=' !in k1 && '=' !in k2
    requires '\n' !in k1 + "=" + v1 && '\n' !in k2 + "=" + v2
    ensures ParseConfigOutput(k1 + "=" + v1 + "\n" + k2 + "=" + v2 + "\n") == map[k1 := Str(v1)][k2 := Str(v2)]
  {
    var l1, l2 := k1 + "=" + v1, k2 + "=" + v2;
    ConfigLinesOfListing([l1, l2]);
    assert [l1, l2] + [""] == [l1, l2, ""];
    assert [l1, l2, ""][1..] == [l2, ""];
    assert [l2, ""][1..] == [""];
    assert Implode([l2, ""], "\n") == l2 + "\n" + "";
    assert Implode([l1, l2, ""], "\n") == l1 + "\n" + Implode([l2, ""], "\n");
    assert l1 + "\n" + (l2 + "\n" + "") == k1 + "=" + v1 + "\n" + k2 + "=" + v2 + "\n";
    LineSplitsAtFirstEquals(k1, v1);
    LineSplitsAtFirstEquals(k2, v2);
    ParseTwoLines(l1, l2);
  }

  /** The two-line listing `user.name=Jane Doe`, `core.bare=false` parses to
      those two entries, the value of `core.bare` staying the string
      "false". */
  lemma ParseConfigExample()
    ensures ParseConfigOutput("user.name=Jane Doe\ncore.bare=false\n")
         == map["user.name" := Str("Jane Doe"), "core.bare" := Str("false")]
  {
    var k1, v1, k2, v2 := "user.name", "Jane Doe", "core.bare", "false";
    assert '=' !in k1 && '=' !in k2;
    assert '\n' !in k1 + "=" + v1 && '\n' !in k2 + "=" + v2;
    ExampleListingText();
    ParseConfigTwoEntries(k1, v1, k2, v2);
  }

  /** The pieces of that listing, joined. */
  lemma ExampleListingText()
    ensures "user.name" + "=" + "Jane Doe" + "\n" + "core.bare" + "=" + "false" + "\n"
         == "user.name=Jane Doe\ncore.bare=false\n"
  {
    assert "user.name" + "=" + "Jane Doe" + "\n" == "user.name=Jane Doe\n";
  }

  /** A value containing `=` is kept whole: `alias.lg=log --format=%h`
      parses to key `alias.lg` and value `log --format=%h`. */
  lemma ParseConfigValueWithEquals()
    ensures ParseConfigOutput("alias.lg=log --format=%h\n") == map["alias.lg" := Str("log --format=%h")]
  {
    ParseConfigOneEntry("alias.lg", "log --format=%h");
    AliasListingText();
  }

  /** The pieces of that listing, joined. */
  lemma AliasListingText()
    ensures "alias.lg" + "=" + "log --format=%h" + "\n" == "alias.lg=log --format=%h\n"
  {
    assert "alias.lg" + "=" == "alias.lg=";
  }

  // ---------------------------------------------------------------------
  // Command classes

  /** `_commandClass($name)`: the name with its first letter upper-cased, in
      the command namespace. */
  function CommandClass(name: string): (className: string)
    ensures |className| == |CommandNamespace| + |name|
    ensures className[..|CommandNamespace|] == CommandNamespace
    ensures |name| > 0 ==> className[|CommandNamespace|] == UpperAscii(name[0])
    ensures |name| > 0 ==> className[|CommandNamespace| + 1..] == name[1..]
  {
    CommandNamespace + UcFirst(name)
  }

  /** Names that differ only in the case of their first letter resolve to
      the same command class (while the cache keeps them apart). */
  lemma CommandClassFirstLetterCase(s: string, t: string)
    requires |s| == |t| > 0 && s[1..] == t[1..]
    requires UpperAscii(s[0]) == UpperAscii(t[0])
    ensures CommandClass(s) == CommandClass(t)
  {
    UcFirstFirstLetterCase(s, t);
  }

  /** A command object created for a handle (`new $commandClass($this)`). */
  class Command {
    const git: Git
    const className: string

    constructor (git: Git, className: string)
      ensures this.git == git && this.className == className
    {
      this.git := git;
      this.className := className;
    }
  }

  /** What `__call` hands on: the command object and the argument list it
      runs with (`run($arguments)`, so the options array is empty). */
  datatype Dispatch = Dispatch(handler: Command, args: seq<Value>)

  /** The Git repository handle. */
  class Git {
    /** Null until a string path is given. */
    var path: Option<string>
    /** Set from `core.bare` at construction; `setBare` may store any value. */
    var bare: Value
    var initialized: bool
    /** The handle's own option layer. */
    var options: Options
    /** Command objects created so far, keyed by the name used to reach them. */
    var commands: map<string, Command>

    /** A stored path never ends in `/`, and every cached command object
        belongs to this handle and is of the class its key names. */
    ghost predicate Valid()
      reads this
    {
      (path.Some? ==> !EndsWith(path.value, '/')) &&
      forall name :: name in commands ==>
        commands[name].git == this && commands[name].className == CommandClass(name)
    }

    /** The property defaults: no path, bare unset, not initialized, no
        options and no commands. */
    constructor ()
      ensures Valid()
      ensures path.None? && bare == Null && !initialized && options == map[] && commands == map[]
    {
      path := None;
      bare := Null;
      initialized := false;
      options := map[];
      commands := map[];
    }

    /** `new Git($path, $options)`. A non-array `options` (None) becomes the
        empty array. A string path that is a repository is stored and the
        handle initialized (which runs `git config --list`, the one way
        construction can fail); any other string path is stored trimmed and
        the handle stays uninitialized. `bare` is the truthiness of the
        `core.bare` option, false when it is absent. */
    static method New(path: Value, options: Option<Options>, fs: FileSystem, world: World) returns (r: Result<Git>)
      ensures var opts := if options.Some? then options.value else map[];
              var valid := path.Str? && IsValidRepositoryPath(fs, path.s);
              var stored := if path.Str? then Some(RTrim(path.s, '/')) else None;
              && (r.Err? <==> valid && world(ConfigInvocation(stored, opts)).NotSpawned?)
              && (r.Err? ==> r.error == SpawnFailed(ConfigList))
              && (r.Ok? ==>
                    && fresh(r.value) && r.value.Valid()
                    && r.value.path == stored
                    && r.value.options == opts
                    && r.value.initialized == valid
                    && r.value.bare == Bool("core.bare" in opts && Truthy(opts["core.bare"]))
                    && r.value.commands == map[])
    {
      var g := new Git();
      g.options := if options.Some? then options.value else map[];
      var status := g.OpenPath(path, fs, world);
      if status.Fail? {
        return Err(status.error);
      }
      GetOptionPrecedence(g, "core.bare", None, Bool(false));
      g.bare := Bool(Truthy(g.GetOption("core.bare", None, Bool(false))));
      return Ok(g);
    }

    /** The path step of `new Git`: a string path that is a repository is
        stored and the handle initialized, which fails only when the config
        listing cannot be spawned; any other string path is stored trimmed;
        a non-string path leaves the handle as it is. */
    method OpenPath(p: Value, fs: FileSystem, world: World) returns (r: Outcome)
      requires Valid()
      modifies this`path, this`initialized
      ensures Valid()
      ensures path == if p.Str? then Some(RTrim(p.s, '/')) else old(path)
      ensures var valid := p.Str? && IsValidRepositoryPath(fs, p.s);
              && (r.Fail? <==> valid && world(ConfigInvocation(path, options)).NotSpawned?)
              && (r.Fail? ==> r.error == SpawnFailed(ConfigList))
              && initialized == (old(initialized) || (valid && r.Pass?))
    {
      r := Pass;
      if p.Str? && IsValidRepositoryPath(fs, p.s) {
        var stored := SetPath(p.s, fs);
        r := SetInitialized(world);
      } else if p.Str? {
        path := Some(RTrim(p.s, '/'));
      }
    }

    /** `getOption($key, $options, $default)`: the call-time options, then
        the handle's options, then the default. Reads the handle only. */
    function GetOption(key: string, call: Option<Options>, default: Value): (v: Value)
      reads this
      ensures v == Resolve(Layers(call, options), key, default)
    {
      if call.Some? && key in call.value then call.value[key]
      else if key in options then
        ResolveFirstHolder(Layers(call, options), key, default, |Layers(call, options)| - 1);
        options[key]
      else
        ResolveNoHolder(Layers(call, options), key, default);
        default
    }

    /** `exec($command, $options)` as seen from outside: the process
        `<git_bin> <command>` is started in the handle's path with the
        `cast.git_env` environment; a started process yields its exit code
        and both streams together with the command and the options, a
        process that cannot start is an error naming the command. */
    function Exec(command: string, call: Option<Options>, world: World): (r: Result<ExecResult>)
      reads this
      ensures r.Ok? <==> world(InvocationFor(path, options, command, call)).Spawned?
      ensures r.Ok? ==> r.value.command == command && r.value.options == call
      ensures r.Ok? ==> var s := world(InvocationFor(path, options, command, call));
                        r.value.code == s.code && r.value.stdout == s.stdout && r.value.stderr == s.stderr
      ensures r.Err? ==> r.error == SpawnFailed(command)
    {
      var bin := ToStr(GetOption(GitBin, call, Str("git")));
      var invocation := Invocation(bin + " " + command, path, GetOption(GitEnv, call, Null));
      match world(invocation)
      case Spawned(code, out, err) => Ok(ExecResult(code, out, err, command, call))
      case NotSpawned => Err(SpawnFailed(command))
    }

    method GetPath() returns (p: Option<string>)
      ensures p == path
    {
      p := path;
    }

    /** `setPath($path)`: an invalid path throws and leaves the stored path
        as it was; a valid one is stored with every trailing `/` removed. */
    method SetPath(p: string, fs: FileSystem) returns (r: Outcome)
      requires Valid()
      modifies this`path
      ensures Valid()
      ensures r.Pass? <==> IsValidRepositoryPath(fs, p)
      ensures r.Fail? ==> r.error == InvalidRepository(p) && path == old(path)
      ensures r.Pass? ==> path == Some(RTrim(p, '/'))
    {
      if !IsValidRepositoryPath(fs, p) {
        return Fail(InvalidRepository(p));
      }
      path := Some(RTrim(p, '/'));
      return Pass;
    }

    method IsInitialized() returns (b: bool)
      ensures b == initialized
    {
      b := initialized;
    }

    /** `setInitialized()`: loads the config with the handle's options and
        marks the handle initialized. The merged config is discarded, so the
        options stay as they were; only a failure to start
        `git config --list` stops the flag from being set. */
    method SetInitialized(world: World) returns (r: Outcome)
      requires Valid()
      modifies this`initialized
      ensures Valid()
      ensures r.Pass? <==> LoadConfig(Some(options), world).Ok?
      ensures r.Fail? ==> r.error == SpawnFailed(ConfigList)
      ensures initialized == (old(initialized) || r.Pass?)
      ensures options == old(options)
    {
      var config := LoadConfig(Some(options), world);
      if config.Err? {
        return Fail(config.error);
      }
      initialized := true;
      return Pass;
    }

    /** `isBare()`: an error unless the handle is initialized, the stored
        flag otherwise. */
    method IsBare() returns (r: Result<Value>)
      ensures initialized ==> r == Ok(bare)
      ensures !initialized ==> r == Err(Uninitialized)
    {
      if !initialized {
        return Err(Uninitialized);
      }
      return Ok(bare);
    }

    /** `setBare($bare = true)`: stores the value as given, initialized or
        not; called with no argument it marks the handle bare. */
    method SetBare(b: Value := Bool(true))
      requires Valid()
      modifies this`bare
      ensures Valid()
      ensures bare == b
    {
      bare := b;
    }

    /** `loadConfig($options)`: runs `git config --list` and merges the
        parsed entries with the given options, which win; it fails only
        when the listing cannot be started (a non-zero exit is parsed
        like any other output). */
    function LoadConfig(call: Option<Options>, world: World): (r: Result<Options>)
      reads this
      ensures r.Ok? <==> Exec(ConfigList, call, world).Ok?
      ensures r.Err? ==> r.error == SpawnFailed(ConfigList)
      ensures r.Ok? ==> var parsed := ParseConfigOutput(Exec(ConfigList, call, world).value.stdout);
                        && (call.Some? ==> forall k :: k in call.value ==> k in r.value && r.value[k] == call.value[k])
                        && (forall k :: k in parsed && (call.None? || k !in call.value) ==> k in r.value && r.value[k] == parsed[k])
                        && (forall k :: k in r.value ==> k in parsed || (call.Some? && k in call.value))
    {
      match Exec(ConfigList, call, world)
      case Err(e) => Err(e)
      case Ok(result) =>
        var parsed := ParseConfigOutput(result.stdout);
        Ok(MergeConfig(parsed, if call.Some? then call.value else map[]))
    }

    /** `__get($name)`: the cached object for `name`, or on first access a
        new object of class `ucfirst($name)` stored under `name`; a name
        with no class fails and caches nothing. */
    method Get(name: string, classes: set<string>) returns (r: Result<Command>)
      requires Valid()
      modifies this`commands
      ensures Valid()
      ensures name in old(commands) ==> r == Ok(old(commands)[name]) && commands == old(commands)
      ensures name !in old(commands) && CommandClass(name) in classes ==>
                && r.Ok? && fresh(r.value) && r.value.git == this
                && r.value.className == CommandClass(name)
                && commands == old(commands)[name := r.value]
      ensures name !in old(commands) && CommandClass(name) !in classes ==>
                r == Err(UnknownCommand(UcFirst(name))) && commands == old(commands)
    {
      if name !in commands {
        var className := CommandClass(name);
        if className in classes {
          var command := new Command(this, className);
          commands := commands[name := command];
          return Ok(command);
        }
        return Err(UnknownCommand(UcFirst(name)));
      }
      return Ok(commands[name]);
    }

    /** `__call($name, $arguments)`: resolves `name` through the same cache
        as `__get` and runs the object with the whole argument list. */
    method Call(name: string, arguments: seq<Value>, classes: set<string>) returns (r: Result<Dispatch>)
      requires Valid()
      modifies this`commands
      ensures Valid()
      ensures name in old(commands) ==> r == Ok(Dispatch(old(commands)[name], arguments)) && commands == old(commands)
      ensures name !in old(commands) && CommandClass(name) in classes ==>
                && r.Ok? && fresh(r.value.handler) && r.value.handler.git == this
                && r.value.handler.className == CommandClass(name)
                && r.value.args == arguments
                && commands == old(commands)[name := r.value.handler]
      ensures name !in old(commands) && CommandClass(name) !in classes ==>
                r == Err(UnknownCommand(UcFirst(name))) && commands == old(commands)
    {
      var command := Get(name, classes);
      match command
      case Err(e) => return Err(e);
      case Ok(handler) => return Ok(Dispatch(handler, arguments));
    }

    /** `__isset($name)`: whether an object is cached under `name`. */
    method IsSet(name: string) returns (b: bool)
      ensures b <==> name in commands
    {
      b := name in commands;
    }
  }

  /** Two names that differ only in the case of their first letter resolve
      to the same command class, yet a first access by each caches two
      distinct objects under two keys. */
  method CaseVariantsCachedApart(g: Git, s: string, t: string, classes: set<string>)
      returns (a: Result<Command>, b: Result<Command>)
    requires g.Valid()
    requires s != t && s !in g.commands && t !in g.commands
    requires |s| == |t| > 0 && s[1..] == t[1..] && UpperAscii(s[0]) == UpperAscii(t[0])
    requires CommandClass(s) in classes
    modifies g`commands
    ensures a.Ok? && b.Ok? && a.value != b.value
    ensures a.value.className == b.value.className == CommandClass(s)
    ensures g.commands == old(g.commands)[s := a.value][t := b.value]
  {
    CommandClassFirstLetterCase(s, t);
    a := g.Get(s, classes);
    b := g.Get(t, classes);
  }

  /** The invocation `exec` starts for a handle with the given path and
      options. */
  function InvocationFor(path: Option<string>, instance: Options, command: string, call: Option<Options>): Invocation
  {
    var bin := ToStr(Resolve(Layers(call, instance), GitBin, Str("git")));
    Invocation(bin + " " + command, path, Resolve(Layers(call, instance), GitEnv, Null))
  }

  /** The `git config --list` invocation of a handle being initialized. */
  function ConfigInvocation(path: Option<string>, opts: Options): Invocation
  {
    InvocationFor(path, opts, ConfigList, Some(opts))
  }

  /** Unless `cast.git_bin` is configured, the executable is `git`. */
  lemma ExecDefaultsToGit(path: Option<string>, instance: Options, command: string, call: Option<Options>)
    requires GitBin !in instance && (call.Some? ==> GitBin !in call.value)
    ensures InvocationFor(path, instance, command, call).line == "git " + command
  {
    ResolveNoHolder(Layers(call, instance), GitBin, Str("git"));
  }

  /** `getOption` precedence: a key in the call-time options takes its value
      there; otherwise from the handle's options; otherwise the default. */
  lemma GetOptionPrecedence(g: Git, key: string, call: Option<Options>, default: Value)
    ensures call.Some? && key in call.value ==> g.GetOption(key, call, default) == call.value[key]
    ensures (call.None? || key !in call.value) && key in g.options ==> g.GetOption(key, call, default) == g.options[key]
    ensures (call.None? || key !in call.value) && key !in g.options ==> g.GetOption(key, call, default) == default
  {
    var layers := Layers(call, g.options);
    if call.Some? && key in call.value {
      ResolveFirstHolder(layers, key, default, 0);
    } else if key in g.options {
      ResolveFirstHolder(layers, key, default, |layers| - 1);
    } else {
      ResolveNoHolder(layers, key, default);
    }
  }
}
