/** The lint wrapper's normal form by the names of the options: what the user gave, and what is inserted. */
module WrapperLaws {
  import opened Prelude
  import opened WrapperArgs

  /** Options that take the next argument as their value. */
  predicate WantsValue(arg: string) {
    arg in ["--manifest-path", "-p", "--package", "--lib", "--lib-path"]
  }

  predicate ValueAt(args: seq<string>, i: nat)
    requires i < |args|
  {
    i > 0 && !ValueAt(args, i - 1) && WantsValue(args[i - 1])
  }

  /** The argument at `i` completes or is the option. */
  predicate GaveAt(args: seq<string>, i: nat, flag: Flag)
    requires i < |args|
  {
    var value := ValueAt(args, i);
    match flag
    case ManifestPath => if value then args[i - 1] == "--manifest-path" else "--manifest-path=" <= args[i]
    case Package =>
      if value then args[i - 1] in ["-p", "--package"] else args[i] == "--workspace" || "--package=" <= args[i]
    case Library =>
      if value then args[i - 1] in ["--lib", "--lib-path"] else "--lib=" <= args[i] || "--lib-path=" <= args[i]
    case Fix => !value && args[i] == "--fix"
    case NoDeps => !value && args[i] == "--no-deps"
  }

  ghost predicate Gave(args: seq<string>, flag: Flag) {
    exists i :: 0 <= i < |args| && GaveAt(args, i, flag)
  }

  /** Where the options with an equals sign differ. */
  lemma {:induction false} Spelled(arg: string)
    ensures "--manifest-path=" <= arg ==> |arg| >= 16 && arg[2] == 'm' && arg[15] == '='
    ensures "--package=" <= arg ==> |arg| >= 10 && arg[2] == 'p' && arg[9] == '='
    ensures "--lib=" <= arg ==> |arg| >= 6 && arg[2] == 'l' && arg[5] == '='
    ensures "--lib-path=" <= arg ==> |arg| >= 11 && arg[2] == 'l' && arg[5] == '-' && arg[10] == '='
  {
  }

  lemma {:induction false} WantsByName(arg: string)
    ensures MeaningOf(arg) == Wants(ManifestPath) <==> arg == "--manifest-path"
    ensures MeaningOf(arg) == Wants(Package) <==> arg in ["-p", "--package"]
    ensures MeaningOf(arg) == Wants(Library) <==> arg in ["--lib", "--lib-path"]
    ensures MeaningOf(arg).Wants? <==> WantsValue(arg)
    ensures MeaningOf(arg).Wants? ==> MeaningOf(arg).flag in {ManifestPath, Package, Library}
  {
    Spelled(arg);
  }

  lemma {:induction false} GivesByName(arg: string)
    ensures MeaningOf(arg) == Gives(ManifestPath) <==> "--manifest-path=" <= arg
    ensures MeaningOf(arg) == Gives(Package) <==> arg == "--workspace" || "--package=" <= arg
    ensures MeaningOf(arg) == Gives(Library) <==> "--lib=" <= arg || "--lib-path=" <= arg
    ensures MeaningOf(arg) == Gives(Fix) <==> arg == "--fix"
    ensures MeaningOf(arg) == Gives(NoDeps) <==> arg == "--no-deps"
  {
    Spelled(arg);
  }

  lemma {:induction false} ValuesByName(args: seq<string>, i: nat)
    requires i < |args|
    ensures IsValue(args, i) == ValueAt(args, i)
  {
    if i > 0 {
      ValuesByName(args, i - 1);
      WantsByName(args[i - 1]);
    }
  }

  lemma {:induction false} SettlesByName(args: seq<string>, i: nat, flag: Flag)
    requires i < |args|
    ensures Settles(args, i, flag) == GaveAt(args, i, flag)
  {
    ValuesByName(args, i);
    GivesByName(args[i]);
    if i > 0 { WantsByName(args[i - 1]); }
  }

  /** The scan finds exactly the options that the user gave. */
  lemma {:induction false} FlagsByName(args: seq<string>, flag: Flag)
    ensures flag in SeeAll(NO_FLAGS, args).given <==> Gave(args, flag)
  {
    FlagsExactly(args, flag);
    forall i | 0 <= i < |args|
      ensures Settles(args, i, flag) == GaveAt(args, i, flag)
    {
      SettlesByName(args, i, flag);
    }
  }

  /** An option with a value, as two arguments or as one. */
  predicate IsOption(arg: string, name: string) {
    arg == name || name + "=" <= arg
  }

  predicate IsTarget(arg: string) {
    || arg in {"--all-targets", "--lib", "--bins", "--tests", "--examples", "--benches", "--doc"}
    || IsOption(arg, "--bin") || IsOption(arg, "--test") || IsOption(arg, "--example") || IsOption(arg, "--bench")
  }

  lemma {:induction false} TargetsByName(args: seq<string>)
    ensures AnyTarget(args) <==> exists i :: 0 <= i < |args| && IsTarget(args[i])
  {
    TargetsExactly(args);
    forall i | 0 <= i < |args|
      ensures SelectsTarget(args[i]) == IsTarget(args[i])
    {
      TargetByName(args[i]);
    }
  }

  lemma {:induction false} TargetByName(arg: string)
    ensures SelectsTarget(arg) == IsTarget(arg)
  {
    assert "--bin" + "=" == "--bin=" && "--test" + "=" == "--test=";
    assert "--example" + "=" == "--example=" && "--bench" + "=" == "--bench=";
  }

  /** The arguments after the separator, with a selection of all targets unless one was made or a fix is asked for. */
  ghost function CargoArgs(lint: seq<string>, cargo: seq<string>): seq<string> {
    if Gave(lint, Fix) || (exists i :: 0 <= i < |cargo| && IsTarget(cargo[i])) then cargo else cargo + ["--all-targets"]
  }

  /** The options that the user left to the wrapper. */
  ghost function Inserted(lint: seq<string>, manifest: string): seq<string> {
    (if Gave(lint, ManifestPath) then [] else ["--manifest-path", manifest])
    + (if Gave(lint, Package) || Gave(lint, ManifestPath) then [] else ["--workspace"])
    + (if Gave(lint, NoDeps) then [] else ["--no-deps"])
  }

  /**
    The normal form. With `n` the position of the first `--`, or the length: what was not
    given is put in front, the user's arguments follow in order, and after one separator come
    the user's cargo arguments and, if need be, the selection of all targets.
   */
  lemma {:induction false} NormalFormExactly(argv: seq<string>, manifest: string, n: nat)
    requires n <= |argv| && (forall i :: 0 <= i < n ==> argv[i] != "--") && (n < |argv| ==> argv[n] == "--")
    ensures var lint, cargo := argv[..n], if n < |argv| then argv[n + 1..] else [];
            var final := CargoArgs(lint, cargo);
            Normalize(argv, manifest) == Inserted(lint, manifest) + lint + (if final == [] then [] else ["--"] + final)
  {
    assert SeparatorAt(argv) == n;
    var lint, cargo := argv[..n], if n < |argv| then argv[n + 1..] else [];
    FlagsByName(lint, ManifestPath);
    FlagsByName(lint, Package);
    FlagsByName(lint, NoDeps);
    FlagsByName(lint, Fix);
    TargetsByName(cargo);
  }
}
