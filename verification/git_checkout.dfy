/** The `checkout` command object: it turns positional arguments and
    options into one `checkout ...` command line and hands it to the
    repository handle's `exec`. */
module GitCommands {
  import opened PhpValues
  import opened PhpStrings
  import CastGit

  /** The mode a checkout runs in; at most one is selected. `Detach`,
      `NewBranch` (`-b`), `ResetBranch` (`-B`) and `Orphan` act on the
      branch and accept the `--force`/`--merge` sub-flags; the other modes
      restore paths, which they take after `--`. */
  datatype Mode =
    | NoMode
    | Detach
    | NewBranch
    | ResetBranch
    | Orphan
    | Ours
    | Theirs
    | Conflict(style: Value)
    | Merge
    | Force
    | Patch
  {
    /** Modes that take the `--force`/`--merge` sub-flags before their flag. */
    predicate TakesSubFlags()
    {
      Detach? || NewBranch? || ResetBranch? || Orphan?
    }

    /** Modes whose paths follow a `--` separator. */
    predicate SeparatesPaths()
    {
      Ours? || Theirs? || Conflict? || Merge? || Force? || Patch?
    }

    /** Modes after which paths are appended at all. */
    predicate UsesPaths()
    {
      NewBranch? || ResetBranch? || Orphan? || SeparatesPaths()
    }

    /** Position in the priority order, 1 for the highest; 0 for no mode. */
    function Rank(): nat
    {
      match this
      case NoMode => 0
      case Detach => 1
      case NewBranch => 2
      case ResetBranch => 3
      case Orphan => 4
      case Ours => 5
      case Theirs => 6
      case Conflict(_) => 7
      case Merge => 8
      case Force => 9
      case Patch => 10
    }
  }

  // ---------------------------------------------------------------------
  // The priority table

  /** The mode rules in priority order: each pairs its condition on the
      options with the mode it selects. */
  function ModeRules(opts: Options): seq<(bool, Mode)>
  {
    [ (Flag(opts, "detach"), Detach),
      (Flag(opts, "b"), NewBranch),
      (Flag(opts, "B"), ResetBranch),
      (Flag(opts, "orphan"), Orphan),
      (Flag(opts, "ours"), Ours),
      (Flag(opts, "theirs"), Theirs),
      (Flag(opts, "conflict"), Conflict(Opt("conflict", opts))),
      (EitherFlag(opts, "merge", "m"), Merge),
      (EitherFlag(opts, "force", "f"), Force),
      (EitherFlag(opts, "patch", "p"), Patch) ]
  }

  /** The mode of the first rule whose condition holds, or no mode. */
  function FirstMatch(rules: seq<(bool, Mode)>): Mode
    decreases |rules|
  {
    if rules == [] then NoMode
    else if rules[0].0 then rules[0].1
    else FirstMatch(rules[1..])
  }

  /** In a table whose modes have ranks above `offset`, the first match is
      no mode or one of rank above `offset`. */
  lemma {:induction false} FirstMatchRank(rules: seq<(bool, Mode)>, offset: nat)
    requires forall j :: 0 <= j < |rules| ==> rules[j].1.Rank() > offset
    ensures FirstMatch(rules) == NoMode || FirstMatch(rules).Rank() > offset
    decreases |rules|
  {
    if rules != [] && !rules[0].0 {
      forall j | 0 <= j < |rules| - 1 ensures rules[1..][j].1.Rank() > offset {
        assert rules[1..][j] == rules[j + 1];
      }
      FirstMatchRank(rules[1..], offset);
    }
  }

  /** In a table whose modes have distinct ranks `offset + 1, offset + 2, ...`,
      the first match is rule `i` exactly when rule `i` holds and no
      earlier rule does. */
  lemma {:induction false} FirstMatchIsFirst(rules: seq<(bool, Mode)>, offset: nat, i: nat)
    requires i < |rules|
    requires forall j :: 0 <= j < |rules| ==> rules[j].1.Rank() == offset + j + 1
    ensures FirstMatch(rules) == rules[i].1 <==> rules[i].0 && forall j :: 0 <= j < i ==> !rules[j].0
    decreases i
  {
    if i == 0 {
      if !rules[0].0 {
        forall j | 0 <= j < |rules| - 1 ensures rules[1..][j].1.Rank() > offset + 1 {
          assert rules[1..][j] == rules[j + 1];
        }
        FirstMatchRank(rules[1..], offset + 1);
        assert rules[0].1.Rank() == offset + 1;
      }
    } else {
      if rules[0].0 {
        assert rules[0].1.Rank() == offset + 1 && rules[i].1.Rank() == offset + i + 1;
        assert !(forall j :: 0 <= j < i ==> !rules[j].0);
      } else {
        var tail := rules[1..];
        forall j | 0 <= j < |tail| ensures tail[j].1.Rank() == (offset + 1) + j + 1 {
          assert tail[j] == rules[j + 1];
        }
        FirstMatchIsFirst(tail, offset + 1, i - 1);
        assert tail[i - 1] == rules[i];
        forall j | 0 <= j < i - 1 ensures tail[j] == rules[j + 1] { }
        assert (forall j :: 0 <= j < i ==> !rules[j].0) <==> (forall j :: 0 <= j < i - 1 ==> !tail[j].0) by {
          if forall j :: 0 <= j < i - 1 ==> !tail[j].0 {
            forall j | 0 <= j < i ensures !rules[j].0 {
              if j > 0 { assert rules[j] == tail[j - 1]; }
            }
          }
        }
      }
    }
  }

  /** When no rule holds there is no mode, and otherwise some rule's mode. */
  lemma {:induction false} FirstMatchNone(rules: seq<(bool, Mode)>, offset: nat)
    requires forall j :: 0 <= j < |rules| ==> rules[j].1.Rank() == offset + j + 1
    ensures FirstMatch(rules) == NoMode <==> forall j :: 0 <= j < |rules| ==> !rules[j].0
    decreases |rules|
  {
    if rules != [] {
      FirstMatchNone(rules[1..], offset + 1);
      assert rules[0].1.Rank() == offset + 1;
      forall j | 1 <= j < |rules| ensures rules[j] == rules[1..][j - 1] { }
    }
  }

  /** The mode the options select, as the command object's if/elseif chain
      tests them. */
  function SelectMode(opts: Options): Mode
  {
    if Flag(opts, "detach") then Detach
    else if Flag(opts, "b") then NewBranch
    else if Flag(opts, "B") then ResetBranch
    else if Flag(opts, "orphan") then Orphan
    else if Flag(opts, "ours") then Ours
    else if Flag(opts, "theirs") then Theirs
    else if Flag(opts, "conflict") then Conflict(Opt("conflict", opts))
    else if EitherFlag(opts, "merge", "m") then Merge
    else if EitherFlag(opts, "force", "f") then Force
    else if EitherFlag(opts, "patch", "p") then Patch
    else NoMode
  }

  /** The chain selects the first mode of the priority table that holds. */
  lemma SelectModeIsFirstMatch(opts: Options)
    ensures SelectMode(opts) == FirstMatch(ModeRules(opts))
  {
    var rules := ModeRules(opts);
    forall j | 0 <= j < |rules| ensures rules[j].1.Rank() == j + 1 { }
    var k := if Flag(opts, "detach") then 0
      else if Flag(opts, "b") then 1
      else if Flag(opts, "B") then 2
      else if Flag(opts, "orphan") then 3
      else if Flag(opts, "ours") then 4
      else if Flag(opts, "theirs") then 5
      else if Flag(opts, "conflict") then 6
      else if EitherFlag(opts, "merge", "m") then 7
      else if EitherFlag(opts, "force", "f") then 8
      else if EitherFlag(opts, "patch", "p") then 9
      else 10;
    assert forall j :: 0 <= j < k ==> !rules[j].0;
    if k < 10 {
      assert rules[k].0 && rules[k].1 == SelectMode(opts);
      FirstMatchIsFirst(rules, 0, k);
    } else {
      FirstMatchNone(rules, 0);
    }
  }

  /** The priority chain: mode `i` of the table is selected exactly when its
      condition holds and no higher-priority condition does, and no mode is
      selected exactly when no condition holds. So at most one mode flag is
      ever emitted. */
  lemma SelectModePriority(opts: Options, i: nat)
    requires i < |ModeRules(opts)|
    ensures SelectMode(opts) == ModeRules(opts)[i].1
         <==> ModeRules(opts)[i].0 && forall j :: 0 <= j < i ==> !ModeRules(opts)[j].0
    ensures SelectMode(opts) == NoMode <==> forall j :: 0 <= j < |ModeRules(opts)| ==> !ModeRules(opts)[j].0
  {
    var rules := ModeRules(opts);
    forall j | 0 <= j < |rules| ensures rules[j].1.Rank() == j + 1 { }
    SelectModeIsFirstMatch(opts);
    FirstMatchIsFirst(rules, 0, i);
    FirstMatchNone(rules, 0);
  }

  // ---------------------------------------------------------------------
  // The command line

  /** ` --quiet` when `quiet` or `q` is set. */
  function QuietFlag(opts: Options): string
  {
    if EitherFlag(opts, "quiet", "q") then " --quiet" else ""
  }

  /** ` --force` (for `force`/`f`) then ` --merge` (for `merge`/`m`). */
  function BranchSubFlags(opts: Options): string
  {
    (if EitherFlag(opts, "force", "f") then " --force" else "") +
    (if EitherFlag(opts, "merge", "m") then " --merge" else "")
  }

  /** The sub-flags, only in the modes that take them. */
  function SubFlags(mode: Mode, opts: Options): string
  {
    if mode.TakesSubFlags() then BranchSubFlags(opts) else ""
  }

  /** The flag of the selected mode; the conflict style is embedded as is. */
  function ModeFlag(mode: Mode): string
  {
    match mode
    case NoMode => ""
    case Detach => " --detach"
    case NewBranch => " -b"
    case ResetBranch => " -B"
    case Orphan => " --orphan"
    case Ours => " --ours"
    case Theirs => " --theirs"
    case Conflict(style) => " --conflict=" + ToStr(style)
    case Merge => " --merge"
    case Force => " --force"
    case Patch => " --patch"
  }

  /** The branch argument, when it is not empty. */
  function BranchPart(branch: Value): string
  {
    if Truthy(branch) then " " + ToStr(branch) else ""
  }

  /** The path argument as a list of strings: a list as it is, a scalar as a
      list of one. */
  function PathStrings(paths: Value): seq<string>
  {
    ToStrs(if paths.List? then paths.items else [paths])
  }

  /** Each value as `implode` writes it. */
  function ToStrs(items: seq<Value>): (strs: seq<string>)
    ensures |strs| == |items|
    decreases |items|
  {
    if items == [] then [] else [ToStr(items[0])] + ToStrs(items[1..])
  }

  /** The strings are the values' interpolations, in order. */
  lemma {:induction false} ToStrsElements(items: seq<Value>, k: nat)
    requires k < |items|
    ensures ToStrs(items)[k] == ToStr(items[k])
    decreases k
  {
    if k > 0 {
      ToStrsElements(items[1..], k - 1);
    }
  }

  /** The paths, space-joined, after ` -- ` or a plain space as the two
      switches say; nothing when paths are not used or are empty. */
  function PathTail(usePaths: bool, separatePaths: bool, paths: Value): string
  {
    if usePaths && Truthy(paths) then
      (if separatePaths then " -- " else " ") + Implode(PathStrings(paths), " ")
    else ""
  }

  /** The paths as the selected mode places them. */
  function PathPart(mode: Mode, paths: Value): string
  {
    PathTail(mode.UsesPaths(), mode.SeparatesPaths(), paths)
  }

  /** The first positional argument (the branch), null when absent. */
  function BranchArg(args: seq<Value>): Value
  {
    if |args| > 0 then args[0] else Null
  }

  /** The second positional argument (the paths), null when absent. */
  function PathsArg(args: seq<Value>): Value
  {
    if |args| > 1 then args[1] else Null
  }

  /** The command line in rule-table form: the command name, the quiet
      flag, the sub-flags and flag of the selected mode, the branch, then
      the paths. */
  function CheckoutLine(args: seq<Value>, opts: Options): string
  {
    var mode := SelectMode(opts);
    "checkout" + QuietFlag(opts) + SubFlags(mode, opts) + ModeFlag(mode)
      + BranchPart(BranchArg(args)) + PathPart(mode, PathsArg(args))
  }

  /** The command object for `checkout`, bound to a repository handle. */
  class GitCheckout {
    const git: CastGit.Git
    const command: string

    constructor (git: CastGit.Git)
      ensures this.git == git && command == "checkout"
    {
      this.git := git;
      command := "checkout";
    }

    /** `run($args, $opts)`: shifts the branch and the paths off the
        arguments, builds the command line flag by flag and executes it,
        returning the execution result unchanged. */
    method Run(args: seq<Value>, opts: Options, world: CastGit.World) returns (line: string, r: CastGit.Result<CastGit.ExecResult>)
      requires command == "checkout"
      ensures line == CheckoutLine(args, opts)
      ensures r == git.Exec(line, None, world)
    {
      var rest := args;
      var branch := Null;
      if |rest| > 0 { branch, rest := rest[0], rest[1..]; }
      var paths := Null;
      if |rest| > 0 { paths, rest := rest[0], rest[1..]; }
      assert branch == BranchArg(args) && paths == PathsArg(args);

      ghost var mode := SelectMode(opts);
      line := command;
      if EitherFlag(opts, "quiet", "q") { line := line + " --quiet"; }
      assert line == "checkout" + QuietFlag(opts);
      var usePaths, separatePaths;
      line, usePaths, separatePaths := AppendModeFlags(line, opts);
      assert line == "checkout" + QuietFlag(opts) + SubFlags(mode, opts) + ModeFlag(mode);
      ghost var flags := line;
      if Truthy(branch) {
        line := line + " " + ToStr(branch);
      }
      assert line == flags + BranchPart(branch);
      line := AppendPaths(line, paths, usePaths, separatePaths);
      assert CheckoutLine(args, opts) == "checkout" + QuietFlag(opts) + SubFlags(mode, opts) + ModeFlag(mode)
        + BranchPart(BranchArg(args)) + PathPart(mode, PathsArg(args));
      r := git.Exec(line, None, world);
    }

    /** The tail of `run`: the paths, space-joined, after ` -- ` or a space as
        the switches say, when paths are used and are not empty. */
    method AppendPaths(line0: string, paths: Value, usePaths: bool, separatePaths: bool)
      returns (line: string)
      ensures line == line0 + PathTail(usePaths, separatePaths, paths)
    {
      line := line0;
      if usePaths && Truthy(paths) {
        var list := if paths.List? then paths.items else [paths];
        assert ToStrs(list) == PathStrings(paths);
        line := line + (if separatePaths then " -- " else " ") + Implode(ToStrs(list), " ");
      }
    }

    /** The sub-flags a branch mode takes: ` --force` if `force` or `f` is
        set, then ` --merge` if `merge` or `m` is. */
    method AppendSubFlags(line0: string, opts: Options) returns (line: string)
      ensures line == line0 + BranchSubFlags(opts)
    {
      line := line0;
      if EitherFlag(opts, "force", "f") { line := line + " --force"; }
      if EitherFlag(opts, "merge", "m") { line := line + " --merge"; }
    }

    /** The if/elseif chain of `run`: appends the sub-flags and the flag of
        the first mode whose option is set, and reports whether paths follow
        and whether they follow ` -- `. */
    method AppendModeFlags(line0: string, opts: Options) returns (line: string, usePaths: bool, separatePaths: bool)
      ensures line == line0 + SubFlags(SelectMode(opts), opts) + ModeFlag(SelectMode(opts))
      ensures usePaths == SelectMode(opts).UsesPaths()
      ensures separatePaths == SelectMode(opts).SeparatesPaths()
    {
      ghost var mode := SelectMode(opts);
      usePaths, separatePaths := false, false;
      line := line0;
      if Flag(opts, "detach") {
        line := AppendSubFlags(line, opts);
        line := line + " --detach";
        assert line == line0 + SubFlags(mode, opts) + ModeFlag(mode);
      } else if Flag(opts, "b") {
        line := AppendSubFlags(line, opts);
        line := line + " -b";
        usePaths := true;
        assert line == line0 + SubFlags(mode, opts) + ModeFlag(mode);
      } else if Flag(opts, "B") {
        line := AppendSubFlags(line, opts);
        line := line + " -B";
        usePaths := true;
        assert line == line0 + SubFlags(mode, opts) + ModeFlag(mode);
      } else if Flag(opts, "orphan") {
        line := AppendSubFlags(line, opts);
        line := line + " --orphan";
        usePaths := true;
        assert line == line0 + SubFlags(mode, opts) + ModeFlag(mode);
      } else {
        line, usePaths, separatePaths := AppendRestoreFlags(line, opts);
      }
    }

    /** The rest of that chain, once no branch mode is set: the flag of the
        first path-restoring mode whose option is set; paths then follow
        ` -- `. */
    method AppendRestoreFlags(line0: string, opts: Options) returns (line: string, usePaths: bool, separatePaths: bool)
      requires !Flag(opts, "detach") && !Flag(opts, "b") && !Flag(opts, "B") && !Flag(opts, "orphan")
      ensures line == line0 + ModeFlag(SelectMode(opts))
      ensures usePaths == SelectMode(opts).UsesPaths()
      ensures separatePaths == SelectMode(opts).SeparatesPaths()
    {
      ghost var mode := SelectMode(opts);
      usePaths, separatePaths := false, false;
      line := line0;
      if Flag(opts, "ours") {
        line := line + " --ours";
        usePaths, separatePaths := true, true;
      } else if Flag(opts, "theirs") {
        line := line + " --theirs";
        usePaths, separatePaths := true, true;
      } else if Flag(opts, "conflict") {
        var conflictStyle := Opt("conflict", opts);
        line := line + " --conflict=" + ToStr(conflictStyle);
        usePaths, separatePaths := true, true;
        assert line == line0 + ModeFlag(mode);
      } else if EitherFlag(opts, "merge", "m") {
        line := line + " --merge";
        usePaths, separatePaths := true, true;
      } else if EitherFlag(opts, "force", "f") {
        line := line + " --force";
        usePaths, separatePaths := true, true;
      } else if EitherFlag(opts, "patch", "p") {
        line := line + " --patch";
        usePaths, separatePaths := true, true;
      }
    }
  }

  // ---------------------------------------------------------------------
  // Properties of the command line

  /** The line starts with `checkout`, and with `checkout --quiet` when
      `quiet` or `q` is set. */
  lemma CheckoutLineStart(args: seq<Value>, opts: Options)
    ensures |CheckoutLine(args, opts)| >= 8 && CheckoutLine(args, opts)[..8] == "checkout"
    ensures EitherFlag(opts, "quiet", "q") ==>
              |CheckoutLine(args, opts)| >= 16 && CheckoutLine(args, opts)[..16] == "checkout --quiet"
  {
    var mode := SelectMode(opts);
    var head := "checkout" + QuietFlag(opts);
    var k := |head|;
    var withSub := head + SubFlags(mode, opts);
    var withFlag := withSub + ModeFlag(mode);
    var withBranch := withFlag + BranchPart(BranchArg(args));
    assert CheckoutLine(args, opts) == withBranch + PathPart(mode, PathsArg(args));
    PrefixThrough(withBranch, PathPart(mode, PathsArg(args)), k);
    PrefixThrough(withFlag, BranchPart(BranchArg(args)), k);
    PrefixThrough(withSub, ModeFlag(mode), k);
    PrefixThrough(head, SubFlags(mode, opts), k);
    assert CheckoutLine(args, opts)[..k] == head;
    PrefixThrough("checkout", QuietFlag(opts), 8);
    if EitherFlag(opts, "quiet", "q") {
      assert head == "checkout --quiet";
    }
  }

  /** Appending keeps every prefix of the left part. */
  lemma PrefixThrough(a: string, b: string, k: nat)
    requires k <= |a|
    ensures (a + b)[..k] == a[..k]
  {
  }

  /** Paths are emitted only when the selected mode takes them: never with
      `--detach` or without a mode; plainly after `-b`, `-B` or `--orphan`;
      after ` -- ` in the path-restoring modes. */
  lemma PathPlacement(mode: Mode, paths: Value)
    ensures mode == NoMode || mode == Detach ==> PathPart(mode, paths) == ""
    ensures !Truthy(paths) ==> PathPart(mode, paths) == ""
    ensures (mode == NewBranch || mode == ResetBranch || mode == Orphan) && Truthy(paths) ==>
              PathPart(mode, paths) == " " + Implode(PathStrings(paths), " ")
    ensures mode.SeparatesPaths() && Truthy(paths) ==>
              PathPart(mode, paths) == " -- " + Implode(PathStrings(paths), " ")
  {
  }

  /** A scalar path is a list of one: it is emitted as itself. */
  lemma ScalarPath(p: string)
    ensures Implode(PathStrings(Str(p)), " ") == p
  {
    assert PathStrings(Str(p)) == [p];
  }

  /** The sub-flags appear only before a branch mode's flag; in the
      path-restoring modes `force` and `merge` act only as their own mode. */
  lemma SubFlagsOnlyWithBranchModes(mode: Mode, opts: Options)
    ensures !mode.TakesSubFlags() ==> SubFlags(mode, opts) == ""
    ensures mode.TakesSubFlags() && EitherFlag(opts, "force", "f") && !EitherFlag(opts, "merge", "m") ==>
              SubFlags(mode, opts) == " --force"
    ensures mode.TakesSubFlags() && EitherFlag(opts, "force", "f") && EitherFlag(opts, "merge", "m") ==>
              SubFlags(mode, opts) == " --force --merge"
    ensures mode.TakesSubFlags() && !EitherFlag(opts, "force", "f") && EitherFlag(opts, "merge", "m") ==>
              SubFlags(mode, opts) == " --merge"
    ensures mode.TakesSubFlags() && !EitherFlag(opts, "force", "f") && !EitherFlag(opts, "merge", "m") ==>
              SubFlags(mode, opts) == ""
  {
  }

  /** The conflict style is embedded verbatim: when `conflict` holds the
      style `s` and no higher-priority mode is set, the line carries
      ` --conflict=s` right after the quiet flag. */
  lemma ConflictStyleVerbatim(args: seq<Value>, opts: Options, s: string)
    requires Opt("conflict", opts) == Str(s) && Truthy(Str(s))
    requires !Flag(opts, "detach") && !Flag(opts, "b") && !Flag(opts, "B") && !Flag(opts, "orphan")
    requires !Flag(opts, "ours") && !Flag(opts, "theirs")
    ensures SelectMode(opts) == Conflict(Str(s))
    ensures CheckoutLine(args, opts)
         == "checkout" + QuietFlag(opts) + " --conflict=" + s + BranchPart(BranchArg(args)) + PathPart(Conflict(Str(s)), PathsArg(args))
  {
    SelectModePriority(opts, 6);
  }

  // ---------------------------------------------------------------------
  // Concrete command lines

  /** `(["main"], {})` gives `checkout main`. */
  lemma ExamplePlainBranch()
    ensures CheckoutLine([Str("main")], map[]) == "checkout main"
  {
    NoOptions();
    assert BranchPart(BranchArg([Str("main")])) == " " + "main";
    assert "checkout" + "" + "" + "" + (" " + "main") + "" == "checkout main";
  }

  /** No options select no mode and no quiet flag. */
  lemma NoOptions()
    ensures SelectMode(map[]) == NoMode && QuietFlag(map[]) == "" && !EitherFlag(map[], "quiet", "q")
  {
  }

  /** A branch under the `--detach` mode without `--quiet`: the sub-flags,
      the flag, then the branch. */
  lemma DetachWithBranch(opts: Options, b: string)
    requires Flag(opts, "detach") && !EitherFlag(opts, "quiet", "q")
    requires Truthy(Str(b))
    ensures CheckoutLine([Str(b)], opts) == "checkout" + SubFlags(Detach, opts) + " --detach " + b
  {
    assert SelectMode(opts) == Detach;
    assert BranchPart(BranchArg([Str(b)])) == " " + b;
    assert PathPart(Detach, PathsArg([Str(b)])) == "";
  }

  /** `(["main"], {detach, force})` gives `checkout --force --detach main`:
      any branch under options with `detach` and `force` (or `f`) but
      neither `merge`/`m` nor `quiet`/`q` gives
      `checkout --force --detach <branch>`. */
  lemma DetachForceLine(opts: Options, b: string)
    requires Flag(opts, "detach") && EitherFlag(opts, "force", "f")
    requires !EitherFlag(opts, "merge", "m") && !EitherFlag(opts, "quiet", "q")
    requires Truthy(Str(b))
    ensures CheckoutLine([Str(b)], opts) == "checkout --force --detach " + b
  {
    DetachWithBranch(opts, b);
    SubFlagsOnlyWithBranchModes(Detach, opts);
    ForceDetachPrefix();
  }

  /** `(["main"], {detach, m})` gives `checkout --merge --detach main`: the
      merge sub-flag alone still precedes the mode flag, for any branch under
      options with `detach` and `merge` (or `m`) but neither `force`/`f` nor
      `quiet`/`q`. */
  lemma DetachMergeLine(opts: Options, b: string)
    requires Flag(opts, "detach") && EitherFlag(opts, "merge", "m")
    requires !EitherFlag(opts, "force", "f") && !EitherFlag(opts, "quiet", "q")
    requires Truthy(Str(b))
    ensures CheckoutLine([Str(b)], opts) == "checkout --merge --detach " + b
  {
    DetachWithBranch(opts, b);
    SubFlagsOnlyWithBranchModes(Detach, opts);
    MergeDetachPrefix();
  }

  /** The text of a `--force --detach` line up to its branch. */
  lemma ForceDetachPrefix()
    ensures "checkout" + " --force" + " --detach " == "checkout --force --detach "
  {
    assert "checkout" + " --force" == "checkout --force";
  }

  /** The text of a `--merge --detach` line up to its branch. */
  lemma MergeDetachPrefix()
    ensures "checkout" + " --merge" + " --detach " == "checkout --merge --detach "
  {
    assert "checkout" + " --merge" == "checkout --merge";
  }

  /** A branch and two paths under the `--force` mode without `--quiet`:
      the paths follow ` -- `. */
  lemma ForceWithTwoPaths(opts: Options, b: string, p: string, q: string)
    requires SelectMode(opts) == Force && !EitherFlag(opts, "quiet", "q")
    requires Truthy(Str(b))
    ensures CheckoutLine([Str(b), List([Str(p), Str(q)])], opts) == "checkout --force " + b + " -- " + p + " " + q
  {
    var args := [Str(b), List([Str(p), Str(q)])];
    TwoPaths(p, q);
    assert QuietFlag(opts) == "" && SubFlags(Force, opts) == "";
    assert BranchPart(BranchArg(args)) == " " + b;
    assert PathPart(Force, PathsArg(args)) == " -- " + (p + " " + q);
    ForcePathsRegroup(b, p, q);
  }

  /** Two paths are joined by one space. */
  lemma TwoPaths(p: string, q: string)
    ensures Implode(PathStrings(List([Str(p), Str(q)])), " ") == p + " " + q
  {
    var strs := ToStrs([Str(p), Str(q)]);
    ToStrsElements([Str(p), Str(q)], 0);
    ToStrsElements([Str(p), Str(q)], 1);
    assert strs == [p, q];
    assert strs[1..] == [q];
  }

  /** Regrouping the pieces of a `--force` line with a branch and two paths. */
  lemma ForcePathsRegroup(b: string, p: string, q: string)
    ensures "checkout" + "" + "" + " --force" + (" " + b) + (" -- " + (p + " " + q))
         == "checkout --force " + b + " -- " + p + " " + q
  {
    assert "checkout" + "" + "" + " --force" == "checkout --force";
    assert "checkout --force" + (" " + b) == "checkout --force " + b;
    assert " -- " + (p + " " + q) == " -- " + p + " " + q;
  }

  /** `(["feature/x", ["a.txt", "b.txt"]], {force})` gives
      `checkout --force feature/x -- a.txt b.txt`. */
  lemma ExampleForcePaths()
    ensures CheckoutLine([Str("feature/x"), List([Str("a.txt"), Str("b.txt")])], map["force" := Bool(true)])
         == "checkout --force feature/x -- a.txt b.txt"
  {
    var opts := map["force" := Bool(true)];
    ForceOnly();
    ForceWithTwoPaths(opts, "feature/x", "a.txt", "b.txt");
    ForcePathsText();
  }

  /** The options `{force}` select the `--force` mode and are not quiet. */
  lemma ForceOnly()
    ensures var opts := map["force" := Bool(true)];
            SelectMode(opts) == Force && !EitherFlag(opts, "quiet", "q")
  {
  }

  /** The pieces of that line, joined. */
  lemma ForcePathsText()
    ensures "checkout --force " + "feature/x" + " -- " + "a.txt" + " " + "b.txt"
         == "checkout --force feature/x -- a.txt b.txt"
  {
  }

  /** The quiet prefix does not identify the quiet option: a branch argument
      spelled `--quiet` yields `checkout --quiet` with no option set, so only
      the direction stated by `CheckoutLineStart` holds. */
  lemma QuietPrefixWithoutQuietOption()
    ensures !EitherFlag(map[], "quiet", "q")
    ensures CheckoutLine([Str("--quiet")], map[]) == "checkout --quiet"
  {
    NoOptions();
    assert BranchPart(BranchArg([Str("--quiet")])) == " " + "--quiet";
    QuietBranchText();
  }

  /** The pieces of that line, joined. */
  lemma QuietBranchText()
    ensures "checkout" + "" + "" + "" + (" " + "--quiet") + "" == "checkout --quiet"
  {
    assert " " + "--quiet" == " --quiet";
  }

  /** `(["main"], {quiet, b})` gives `checkout --quiet -b main`. */
  lemma ExampleQuietNewBranch()
    ensures CheckoutLine([Str("main")], map["quiet" := Bool(true), "b" := Bool(true)])
         == "checkout --quiet -b main"
  {
    var opts := map["quiet" := Bool(true), "b" := Bool(true)];
    QuietNewBranchOptions();
    assert BranchPart(BranchArg([Str("main")])) == " " + "main";
    assert PathPart(NewBranch, PathsArg([Str("main")])) == "";
    QuietNewBranchText();
  }

  /** The options `{quiet, b}` select `-b` without sub-flags, quietly. */
  lemma QuietNewBranchOptions()
    ensures var opts := map["quiet" := Bool(true), "b" := Bool(true)];
            SelectMode(opts) == NewBranch && QuietFlag(opts) == " --quiet" && SubFlags(NewBranch, opts) == ""
  {
  }

  /** The pieces of that line, joined. */
  lemma QuietNewBranchText()
    ensures "checkout" + " --quiet" + "" + " -b" + (" " + "main") + "" == "checkout --quiet -b main"
  {
    assert "checkout" + " --quiet" + "" + " -b" == "checkout --quiet -b";
  }
}
