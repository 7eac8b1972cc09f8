# Cast git layer — a verified model

Cast drives git from PHP. This project models three parts of it in Dafny.

- **The repository handle** (`Cast\Git\Git`). It holds the repository path, the initialized and bare flags, its own option layer and a cache of command objects created on first use by name. The model also covers:
  - option lookup through call-time options, then the handle's options, then a default;
  - the parser for `git config --list` output;
  - the way a command line reaches the `git` executable.
- **The `checkout` command** (`Cast\Git\Commands\GitCheckout::run`). It turns positional arguments (branch, paths) and an option array into one `checkout …` command line. Mode flags follow a strict priority, `--force`/`--merge` act as sub-flags, and paths are placed as the selected mode requires.
- **The post-run hooks** of `cast clone`, `cast checkout` and `cast rm`. After git has run, each decides whether the model serializer re-reads the model from the files (`unserializeModel`).

Files and modules:

| file | module | contents |
|---|---|---|
| `php_values.dfy` | `PhpValues` | PHP values, truthiness, string interpolation, the `opt` lookup |
| `php_strings.dfy` | `PhpStrings` | `rtrim`, `ucfirst`, `explode` (also with limit 2), `implode`, with their round trips |
| `git.dfy` | `CastGit` | the `Git` class, the option layers, config parsing, the command cache, `exec` as seen from outside |
| `git_checkout.dfy` | `GitCommands` | the `GitCheckout` class, the mode priority table and the command-line specification |
| `cast_commands.dfy` | `CastCommands` | the serializer's call log and the three `afterRun` hooks |

How the model is put together:

- **`GitCheckout.run`.** The method `GitCommands.GitCheckout.Run` builds the line by successive appends across the if/elseif chain, as the source does. It is proved to produce `CheckoutLine(args, opts)`, a pure specification of the line.
- **Mode priority.** The mode is chosen by `SelectMode`, the chain as written. It is proved equal to the first match of an independent priority table (`ModeRules`/`FirstMatch`), and every property of the line is proved about `CheckoutLine`.
- **The `Git` object.** It is a class whose methods update its fields. `Valid()` says two things:
  - a stored path never ends in `/`;
  - every cached command object belongs to the handle and has the class its cache key names.
- **The hooks.** Each hook's `AfterRun` appends to the serializer's call log exactly the calls given by a pure function of the options (`CloneHookCalls`, …). The gate properties are lemmas about those functions.

The environment is passed in as parameters:

- **`FileSystem`.** The set of readable files, which `is_readable` consults.
- **`World`.** What happens to each process invocation: it runs with an exit code and output, or it cannot be spawned.
- **`classes`.** The set of command classes that exist, which `class_exists` consults.
- **`shouldSerialize` / `isImplicitMode`.** The Cast command's own tests, as uninterpreted predicates on the options.

The model keeps these behaviours of the code as written:

- **Loaded config is discarded.** `setInitialized` calls `loadConfig` and discards its merged result (src/Cast/Git/Git.php:153-157), so the handle's options never receive the repository's git config, although the options property is documented as a cache of Git and Cast config data (src/Cast/Git/Git.php:31-32). `Git.SetInitialized` ensures `options == old(options)`. So `bare` comes only from a `core.bare` passed in by the caller, never from the repository's own config.
- **`__call` passes no options.** It calls `run($arguments)`, so the command always runs with an empty option array. `Git.Call` hands on the whole argument list and no options.
- **PHP truthiness is kept exactly.** This includes `"0"` being false. It decides whether a branch or path argument is emitted and whether an option counts as set.
- **A config line without `=`.** Its key is the whole line and its value is null, as PHP's `list()` on a one-element array gives. Config values stay strings, so `core.bare=false` yields the string `"false"`.
- **The stored path.** It is the given path with trailing `/` removed; it is not resolved or made absolute.

## Model

| member | source | states |
|---|---|---|
| PhpValues.Truthy | src/Cast/Git/Commands/GitCheckout.php:70 | defines PHP's conversion to bool, used by `(bool)`, `!empty` and `if`: null, false, 0, "", "0" and the empty array are false, everything else is true |
| PhpValues.ToStr | src/Cast/Git/Commands/GitCheckout.php:54 | defines the text PHP interpolates for a value: a string as is, true as `1`, false and null as nothing, integers in decimal, an array as `Array` |
| PhpValues.Opt | src/Cast/Git/Commands/GitCheckout.php:25 | defines the option lookup of the command classes: the value under the key, or null when the key is absent |
| PhpStrings.Implode | src/Cast/Git/Commands/GitCheckout.php:75 | defines `implode`: the pieces in order with the glue between neighbours; `ImplodeExplode` and `ExplodeImplode` tie it to `explode` |
| PhpStrings.RTrim | src/Cast/Git/Git.php:58 | `rtrim($path, '/')` gives a prefix of the input that does not end in `/`, and only `/` characters were removed |
| PhpStrings.RTrimIdempotent | src/Cast/Git/Git.php:140 | trimming a stored path again changes nothing |
| PhpStrings.RTrimAppended | src/Cast/Git/Git.php:140 | a path not ending in `/`, followed by any number of `/`, trims back to exactly that path |
| PhpStrings.UcFirst | src/Cast/Git/Git.php:233 | `ucfirst` keeps the length, upper-cases the first character and leaves the rest untouched |
| PhpStrings.UcFirstFirstLetterCase | src/Cast/Git/Git.php:233 | names differing only in the case of their first letter have the same `ucfirst` |
| PhpStrings.Explode | src/Cast/Git/Git.php:190 | splitting the listing on newlines yields at least one piece and no piece contains a newline |
| PhpStrings.ImplodeExplode | src/Cast/Git/Git.php:190 | joining the pieces with the separator restores the listing |
| PhpStrings.ExplodeImplode | src/Cast/Git/Git.php:190 | splitting a join of separator-free pieces gives back exactly those pieces |
| PhpStrings.SplitFirst | src/Cast/Git/Git.php:193 | `explode('=', $line, 2)`: no `=` gives the whole line and no value; otherwise the line is head, `=`, value, with no `=` in the head |
| PhpStrings.SplitFirstAt | src/Cast/Git/Git.php:193 | the split happens at the first `=` only; later `=` stay in the value |
| CastGit.IsValidRepositoryPath | src/Cast/Git/Git.php:36-43 | defines the repository test: a path is valid exactly when `<path>/.git/HEAD` or `<path>/HEAD` is readable |
| CastGit.ResolveFirstHolder | src/Cast/Git/Git.php:77-80 | the first option layer holding the key gives the value |
| CastGit.ResolveNoHolder | src/Cast/Git/Git.php:81-82 | when no layer holds the key the default is returned |
| CastGit.Git.GetOption | src/Cast/Git/Git.php:75-85 | `getOption` is the layered lookup: call-time options, then the handle's options, then the default; it reads the handle and changes nothing |
| CastGit.GetOptionPrecedence | src/Cast/Git/Git.php:75-85 | each of the three cases of the lookup, stated separately |
| CastGit.Git.Exec | src/Cast/Git/Git.php:96-128 | `exec` succeeds exactly when the process `<git_bin> <command>` can be started in the handle's path with the `cast.git_env` environment. It returns that process's exit code, stdout and stderr with the command and options unchanged, and otherwise fails naming the command |
| CastGit.ExecDefaultsToGit | src/Cast/Git/Git.php:100 | without a `cast.git_bin` option the process line is `git <command>` |
| CastGit.ConfigLines | src/Cast/Git/Git.php:190-191 | the listing's lines after the last piece is popped; none contains a newline |
| CastGit.ConfigLinesOfListing | src/Cast/Git/Git.php:190-191 | a listing of newline-terminated lines yields exactly those lines; the popped piece is the empty one after the final newline |
| CastGit.LineSplitsAtFirstEquals | src/Cast/Git/Git.php:193-194 | `key=value` with `=` inside the value gives that key and that whole value |
| CastGit.ParseConfigLines | src/Cast/Git/Git.php:192-195 | defines the `foreach` over the lines, each line storing its value under its key in order; `ParseConfigKeys` and `ParseConfigLastWins` state its result |
| CastGit.ParseConfigKeys | src/Cast/Git/Git.php:192-195 | the parsed config holds exactly the keys of the listed lines |
| CastGit.ParseConfigLastWins | src/Cast/Git/Git.php:192-195 | a key's value is that of the last line carrying the key |
| CastGit.ParseTwoLines | src/Cast/Git/Git.php:192-195 | two lines parse to the second's entry laid over the first's |
| CastGit.ParseConfigOneEntry | src/Cast/Git/Git.php:188-195 | a one-line listing `k=v` parses to the single entry `k => v` |
| CastGit.ParseConfigTwoEntries | src/Cast/Git/Git.php:188-195 | a two-line listing parses to both entries, the later winning on equal keys |
| CastGit.ParseConfigExample | src/Cast/Git/Git.php:188-195 | `user.name=Jane Doe`, `core.bare=false` parse to those two string entries |
| CastGit.ParseConfigValueWithEquals | src/Cast/Git/Git.php:193 | `alias.lg=log --format=%h` keeps `log --format=%h` whole as the value |
| CastGit.MergeConfig | src/Cast/Git/Git.php:197 | `array_merge($config, $options)` has the keys of both, the options win, and parsed entries not overridden are kept |
| CastGit.Git.LoadConfig | src/Cast/Git/Git.php:186-198 | `loadConfig` fails only when `git config --list` cannot be started. Otherwise it returns the parsed listing merged with the given options: the options win, other parsed entries are kept, and nothing else appears |
| CastGit.Git.constructor | src/Cast/Git/Git.php:26-34 | a fresh handle has PHP's default property values: no path, not initialized, no options, no commands |
| CastGit.Git.New | src/Cast/Git/Git.php:51-61 | `new Git($path, $options)`: non-array options become empty. A repository path is stored trimmed and the handle initialized, which fails only when the config listing cannot be spawned. Any other string path is stored trimmed and left uninitialized. `bare` is the truthiness of `core.bare` (false when absent) and the cache is empty |
| CastGit.Git.OpenPath | src/Cast/Git/Git.php:54-59 | a string path that is a repository is stored trimmed and the handle initialized, failing only when the config listing cannot be spawned; any other string path is stored trimmed and the handle left uninitialized; a non-string path changes nothing; the handle stays valid |
| CastGit.Git.GetPath | src/Cast/Git/Git.php:130-133 | returns the stored path |
| CastGit.Git.SetPath | src/Cast/Git/Git.php:135-141 | an invalid path fails and leaves the path unchanged; a valid one is stored trimmed of trailing `/`; the handle stays valid |
| CastGit.Git.IsInitialized | src/Cast/Git/Git.php:148-151 | returns the initialized flag |
| CastGit.Git.SetInitialized | src/Cast/Git/Git.php:153-157 | sets the initialized flag exactly when the config can be loaded (a spawn failure is the only error), and leaves the options unchanged because the merged config is discarded |
| CastGit.Git.IsBare | src/Cast/Git/Git.php:165-172 | fails exactly when the handle is not initialized, otherwise returns the stored flag |
| CastGit.Git.SetBare | src/Cast/Git/Git.php:174-177 | stores the given value with no precondition on initialization; with no argument it stores true |
| CastGit.Git.Get | src/Cast/Git/Git.php:213-224 | `__get`: a cached name returns the same object and changes nothing. A new name with an existing class adds exactly one fresh object of class `ucfirst(name)` under that name. An unknown name fails with `ucfirst(name)` and leaves the cache unchanged |
| CastGit.Git.Call | src/Cast/Git/Git.php:200-211 | `__call`: the same cache behaviour as `__get`, then hands the object and the whole argument list to `run`, as a `Dispatch` |
| CastGit.Git.IsSet | src/Cast/Git/Git.php:226-229 | `__isset` holds exactly when the name is a cache key |
| CastGit.CommandClass | src/Cast/Git/Git.php:231-235 | `_commandClass`: the command namespace followed by the name with only its first letter upper-cased |
| CastGit.CommandClassFirstLetterCase | src/Cast/Git/Git.php:231-235 | names differing only in first-letter case resolve to the same command class |
| CastGit.CaseVariantsCachedApart | src/Cast/Git/Git.php:213-224 | first accesses by two such names cache two distinct objects of that one class, under two separate keys |
| CastGit.Command.constructor | src/Cast/Git/Git.php:205 | a command object is bound to the handle that created it and to its class |
| GitCommands.SelectMode | src/Cast/Git/Commands/GitCheckout.php:26-69 | defines the mode the if/elseif chain selects; `SelectModeIsFirstMatch` and `SelectModePriority` state its priority order |
| GitCommands.SelectModeIsFirstMatch | src/Cast/Git/Commands/GitCheckout.php:26-69 | the if/elseif chain selects the first mode of the priority table whose option is set |
| GitCommands.SelectModePriority | src/Cast/Git/Commands/GitCheckout.php:26-69 | mode `i` is selected exactly when its option is set and no higher-priority option is; no mode exactly when none is set; so at most one mode flag |
| GitCommands.ToStrs | src/Cast/Git/Commands/GitCheckout.php:75 | one string per path |
| GitCommands.ToStrsElements | src/Cast/Git/Commands/GitCheckout.php:75 | the `k`-th string is the `k`-th path as PHP interpolates it, so the order is kept |
| GitCommands.CheckoutLine | src/Cast/Git/Commands/GitCheckout.php:24-76 | defines the command line: `checkout`, the quiet flag, the selected mode's sub-flags and flag, the branch, then the paths; `GitCheckout.Run` is proved to build exactly it |
| GitCommands.GitCheckout.constructor | src/Cast/Git/Commands/GitCheckout.php:15 | the command object is bound to its handle and its command word is `checkout` |
| GitCommands.GitCheckout.Run | src/Cast/Git/Commands/GitCheckout.php:17-79 | `run` builds exactly the specified line from `(args, opts)` and returns `exec` of that line unchanged |
| GitCommands.GitCheckout.AppendModeFlags | src/Cast/Git/Commands/GitCheckout.php:26-69 | the chain appends the sub-flags and flag of the selected mode and sets the path switches as that mode requires |
| GitCommands.GitCheckout.AppendSubFlags | src/Cast/Git/Commands/GitCheckout.php:27-28 | appends ` --force` when `force` or `f` is set, then ` --merge` when `merge` or `m` is |
| GitCommands.GitCheckout.AppendRestoreFlags | src/Cast/Git/Commands/GitCheckout.php:45-69 | once no branch mode is set, appends the flag of the selected path-restoring mode (none when no mode is set); paths then follow ` -- ` |
| GitCommands.GitCheckout.AppendPaths | src/Cast/Git/Commands/GitCheckout.php:73-76 | paths are appended, after ` -- ` or a space, exactly as the mode's switches say |
| GitCommands.CheckoutLineStart | src/Cast/Git/Commands/GitCheckout.php:24-25 | the line starts with `checkout`, and with `checkout --quiet` when `quiet` or `q` is set |
| GitCommands.QuietPrefixWithoutQuietOption | src/Cast/Git/Commands/GitCheckout.php:24-25 | the converse fails: the branch argument `--quiet` with no options gives `checkout --quiet` |
| GitCommands.SubFlagsOnlyWithBranchModes | src/Cast/Git/Commands/GitCheckout.php:27-43 | in the detach, `-b`, `-B` and orphan modes the sub-flags are ` --force` then ` --merge`, each present exactly when its option is set (all four combinations); no other mode has sub-flags |
| GitCommands.ConflictStyleVerbatim | src/Cast/Git/Commands/GitCheckout.php:53-54 | when conflict is the selected mode (no higher-priority option set) and its style is a string that PHP treats as true (not empty, not `"0"`), the style is embedded verbatim as ` --conflict=<style>` right after the quiet flag |
| GitCommands.PathPlacement | src/Cast/Git/Commands/GitCheckout.php:73-76 | paths never follow `--detach` or no mode. They are space-joined after `-b`, `-B` and `--orphan`, and follow ` -- ` in the path-restoring modes; empty paths are dropped |
| GitCommands.ScalarPath | src/Cast/Git/Commands/GitCheckout.php:74 | a scalar path is emitted as a list of one |
| GitCommands.ForceWithTwoPaths | src/Cast/Git/Commands/GitCheckout.php:61-76 | in force mode, without `quiet`/`q` and with a non-empty branch, the branch and two paths give `checkout --force <branch> -- <p> <q>` |
| GitCommands.ExamplePlainBranch | src/Cast/Git/Commands/GitCheckout.php:24-72 | `(["main"], {})` gives `checkout main` |
| GitCommands.DetachForceLine | src/Cast/Git/Commands/GitCheckout.php:26-29 | with `detach` and `force` (or `f`) set, and neither `merge`/`m` nor `quiet`/`q`, any branch `b` that PHP treats as non-empty (not `""`, not `"0"`) gives `checkout --force --detach b`; e.g. `(["main"], {detach, force})` gives `checkout --force --detach main` |
| GitCommands.DetachMergeLine | src/Cast/Git/Commands/GitCheckout.php:26-29 | with `detach` and `merge` (or `m`) set, and neither `force`/`f` nor `quiet`/`q`, any branch `b` that PHP treats as non-empty (not `""`, not `"0"`) gives `checkout --merge --detach b`; e.g. `(["main"], {detach, m})` gives `checkout --merge --detach main` |
| GitCommands.ExampleForcePaths | src/Cast/Git/Commands/GitCheckout.php:61-76 | `(["feature/x", ["a.txt", "b.txt"]], {force})` gives `checkout --force feature/x -- a.txt b.txt` |
| GitCommands.ExampleQuietNewBranch | src/Cast/Git/Commands/GitCheckout.php:24-34 | `(["main"], {quiet, b})` gives `checkout --quiet -b main` |
| CastCommands.Serializer.UnserializeModel | src/Cast/Commands/CastClone.php:20 | a call to `unserializeModel` adds exactly one entry to the serializer's call log |
| CastCommands.CloneHookCalls | src/Cast/Commands/CastClone.php:19-20 | `clone` calls `unserializeModel` once exactly when neither `no-checkout` nor `n` is set and serialization is requested, and makes no call otherwise |
| CastCommands.CheckoutHookCalls | src/Cast/Commands/CastCheckout.php:19-20 | `checkout` calls `unserializeModel` once exactly when serialization is requested, and makes no call otherwise |
| CastCommands.RmHookCalls | src/Cast/Commands/CastRm.php:19-20 | `rm` calls `unserializeModel` once exactly in implicit mode, and makes no call otherwise |
| CastCommands.CastClone.AfterRun | src/Cast/Commands/CastClone.php:17-22 | the hook adds exactly the clone calls to the log, whatever the positional arguments |
| CastCommands.CastCheckout.AfterRun | src/Cast/Commands/CastCheckout.php:17-22 | the hook adds exactly the checkout calls to the log, whatever the positional arguments |
| CastCommands.CastRm.AfterRun | src/Cast/Commands/CastRm.php:17-22 | the hook adds exactly the rm calls to the log, whatever the positional arguments |
| CastCommands.CloneSkipsWithoutCheckout | src/Cast/Commands/CastClone.php:19 | with `no-checkout` or `n` set, `clone` never calls `unserializeModel` |
| CastCommands.CloneStricterThanCheckout | src/Cast/Commands/CastClone.php:19 | `clone` calls only when `checkout` would, and the same as `checkout` when neither `no-checkout` nor `n` is set |
| CastCommands.CheckoutIgnoresCloneFlags | src/Cast/Commands/CastCheckout.php:19 | `checkout` does not consult `no-checkout` or `n` |
| CastCommands.RmOnlyImplicitMode | src/Cast/Commands/CastRm.php:19 | `rm` consults only the implicit-mode test |
| CastCommands.HooksOnlyUnserialize | src/Cast/Commands/CastRm.php:20 | no hook ever calls `serializeModel` |

## Left out

- **The body of `exec`:** `set_time_limit`, `proc_open` with pipes, stream draining and `proc_close` are process I/O (src/Cast/Git/Git.php:98-124). They are replaced by the `World` parameter, which gives each invocation an outcome. Exceptions thrown while reading the pipes are not modelled.
- **Concurrency:** none in this code. A handle is used by one caller at a time.
- **`is_readable` and `class_exists`:** these are parameters (`FileSystem`, `classes`). PHP's case-insensitive class lookup is folded into the `classes` set the caller supplies.
- **`new $commandClass($this)`:** this becomes a fresh `Command` that records its handle and class name. The constructor of each command class is not part of this model.
- **`CastGit.Git.Call`:** returns the `Dispatch` it would run (the command object and the whole argument list) and does not run it, so it does not return the result of the command's `run` as `__call` does (src/Cast/Git/Git.php:206, 210). The command classes other than `GitCheckout` are not part of this model.
- **`Value` has no floats and no string-keyed arrays:** a PHP array is modelled only as a list. So the `cast.git_env` environment array handed to `proc_open` (src/Cast/Git/Git.php:108) and any float option value have no exact representation. `World` receives the environment only as an opaque `Value`.
- **`GitCommand::opt`, `CastCommand::opt` and `GitCommand::exec`:** these are not part of this model.
  - Both `opt` methods are taken to be the value stored under the key, or null; the checkout line and the `clone` hook (src/Cast/Commands/CastClone.php:19) test that value's truthiness.
  - `exec` is taken to pass the line to the handle's `exec` with no call-time options.
- **`CastCommand::shouldSerialize`, `CastCommand::isImplicitMode` and `getSerializer()`:** these are not part of this model. The two tests are uninterpreted predicates. The serializer is the one held by the hook object.
- **The serializer's own behaviour:** only the calls made to it are recorded. `serializeModel` is named in the call log but never invoked by these hooks.
- **Exception classes:** `InvalidArgumentException`, `BadMethodCallException` and `RuntimeException` are all failures with a reason. The model does not distinguish their classes.
- **`array_merge` on numeric keys:** PHP turns integer-like string keys into integer keys and `array_merge` renumbers those. This is not modelled: keys are strings throughout. git config keys always contain a `.`, so they are never integer-like, and the merged result is discarded by `setInitialized` anyway.
- **PHP notices:** interpolating an array gives `Array` in the model, and the accompanying notice is not modelled.
