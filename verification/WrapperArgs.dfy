/** The lint wrapper's command line: what it recognises and the normal form it builds. */
module WrapperArgs {
  import opened Prelude

  const SEPARATOR := "--"
  const MANIFEST_PATH := "--manifest-path"
  const WORKSPACE := "--workspace"
  const NO_DEPS := "--no-deps"
  const ALL_TARGETS := "--all-targets"

  predicate SelectsTarget(arg: string) {
    || arg in ["--all-targets", "--lib", "--bins", "--tests", "--examples", "--benches", "--doc"]
    || arg in ["--bin", "--test", "--example", "--bench"]
    || "--bin=" <= arg || "--test=" <= arg || "--example=" <= arg || "--bench=" <= arg
  }

  /** The `has_...` fields that lint arguments can set. */
  datatype Flag = ManifestPath | Package | Library | Fix | NoDeps

  /** The flags set so far, and the flag that the next argument will set by being a value. */
  datatype Flags = Flags(awaits: Option<Flag>, given: set<Flag>)

  const NO_FLAGS := Flags(None, {})

  datatype Parsed = Parsed(lintArgs: seq<string>, cargoArgs: seq<string>, flags: Flags, targetSelection: bool)

  /** The position of the first separator, or the length. */
  function SeparatorAt(argv: seq<string>): (n: nat)
    ensures n <= |argv|
    ensures forall i :: 0 <= i < n ==> argv[i] != SEPARATOR
    ensures n < |argv| ==> argv[n] == SEPARATOR
  {
    if |argv| == 0 || argv[0] == SEPARATOR then 0 else 1 + SeparatorAt(argv[1..])
  }

  /** What a lint argument means where no value is awaited. */
  datatype Meaning = Wants(flag: Flag) | Gives(flag: Flag) | Plain

  function MeaningOf(arg: string): Meaning {
    if arg == MANIFEST_PATH then Wants(ManifestPath)
    else if "--manifest-path=" <= arg then Gives(ManifestPath)
    else if arg == "-p" || arg == "--package" then Wants(Package)
    else if "--package=" <= arg then Gives(Package)
    else if arg == "--fix" then Gives(Fix)
    else if arg == WORKSPACE then Gives(Package)
    else if arg == NO_DEPS then Gives(NoDeps)
    else if arg == "--lib" || arg == "--lib-path" then Wants(Library)
    else if "--lib=" <= arg || "--lib-path=" <= arg then Gives(Library)
    else Plain
  }

  function SeeMeaning(f: Flags, m: Meaning): Flags {
    if f.awaits.Some? then Flags(None, f.given + {f.awaits.value})
    else match m
         case Wants(flag) => f.(awaits := Some(flag))
         case Gives(flag) => f.(given := f.given + {flag})
         case Plain => f
  }

  function See(f: Flags, arg: string): Flags {
    SeeMeaning(f, MeaningOf(arg))
  }

  function SeeAll(f: Flags, args: seq<string>): Flags
    decreases |args|
  {
    if |args| == 0 then f else See(SeeAll(f, Front(args)), Last(args))
  }

  predicate AnyTarget(args: seq<string>) {
    |args| > 0 && (AnyTarget(Front(args)) || SelectsTarget(Last(args)))
  }

  /** The argument at `i` is the value of the option before it. */
  predicate IsValue(args: seq<string>, i: nat)
    requires i < |args|
  {
    i > 0 && !IsValue(args, i - 1) && MeaningOf(args[i - 1]).Wants?
  }

  /** The argument at `i` settles the flag: as the value of its option, or by itself. */
  predicate Settles(args: seq<string>, i: nat, flag: Flag)
    requires i < |args|
  {
    if IsValue(args, i) then MeaningOf(args[i - 1]) == Wants(flag) else MeaningOf(args[i]) == Gives(flag)
  }

  lemma {:induction false} ValuesOfFront(args: seq<string>, i: nat)
    requires i < |args| - 1
    ensures IsValue(Front(args), i) == IsValue(args, i)
  {
    if i > 0 { ValuesOfFront(args, i - 1); }
  }

  lemma {:induction false} SettlesOfFront(args: seq<string>, flag: Flag)
    requires |args| > 0
    ensures (exists i :: 0 <= i < |args| && Settles(args, i, flag))
            <==> (exists i :: 0 <= i < |args| - 1 && Settles(Front(args), i, flag)) || Settles(args, |args| - 1, flag)
  {
    forall i | 0 <= i < |args| - 1
      ensures Settles(Front(args), i, flag) == Settles(args, i, flag)
    {
      ValuesOfFront(args, i);
    }
  }

  /**
    What the scan with its awaited value finds: a flag is set exactly if some argument
    settles it, and a value is awaited exactly after an option that wants one.
   */
  lemma {:induction false} FlagsExactly(args: seq<string>, flag: Flag)
    ensures flag in SeeAll(NO_FLAGS, args).given <==> exists i :: 0 <= i < |args| && Settles(args, i, flag)
    ensures SeeAll(NO_FLAGS, args).awaits == Some(flag)
            <==> |args| > 0 && !IsValue(args, |args| - 1) && MeaningOf(Last(args)) == Wants(flag)
    decreases |args|
  {
    if |args| > 0 {
      FlagsExactly(Front(args), flag);
      AwaitsValue(args);
      SettlesOfFront(args, flag);
    }
  }

  /** A value is awaited before the last argument exactly if that is one. */
  lemma {:induction false} AwaitsValue(args: seq<string>)
    requires |args| > 0
    ensures var before := SeeAll(NO_FLAGS, Front(args)).awaits;
            && (before.Some? <==> IsValue(args, |args| - 1))
            && (before.Some? ==> |args| > 1 && MeaningOf(args[|args| - 2]) == Wants(before.value))
    decreases |args|
  {
    if |args| > 1 {
      AwaitsValue(Front(args));
      ValuesOfFront(args, |args| - 2);
    }
  }

  lemma {:induction false} TargetsExactly(args: seq<string>)
    ensures AnyTarget(args) <==> exists i :: 0 <= i < |args| && SelectsTarget(args[i])
  {
    if |args| > 0 {
      TargetsExactly(Front(args));
      assert args == Front(args) + [Last(args)];
    }
  }

  function LintPart(argv: seq<string>): seq<string> {
    argv[..SeparatorAt(argv)]
  }

  function CargoPart(argv: seq<string>): seq<string> {
    if SeparatorAt(argv) < |argv| then argv[SeparatorAt(argv) + 1..] else []
  }

  /** What parsing finds: the two sides of the first separator and what each side says. */
  function Parse(argv: seq<string>): Parsed {
    Parsed(LintPart(argv), CargoPart(argv), SeeAll(NO_FLAGS, LintPart(argv)), AnyTarget(CargoPart(argv)))
  }

  method Record(before: Flags, arg: string) returns (flags: Flags)
    ensures flags == See(before, arg)
  {
    var awaits, given := before.awaits, before.given;
    if awaits.Some? {
      given := given + {awaits.value};
      awaits := None;
    } else if arg == MANIFEST_PATH {
      awaits := Some(ManifestPath);
    } else if "--manifest-path=" <= arg {
      given := given + {ManifestPath};
    } else if arg == "-p" || arg == "--package" {
      awaits := Some(Package);
    } else if "--package=" <= arg {
      given := given + {Package};
    } else if arg == "--fix" {
      given := given + {Fix};
    } else if arg == WORKSPACE {
      given := given + {Package};
    } else if arg == NO_DEPS {
      given := given + {NoDeps};
    } else if arg == "--lib" || arg == "--lib-path" {
      awaits := Some(Library);
    } else if "--lib=" <= arg || "--lib-path=" <= arg {
      given := given + {Library};
    }
    flags := Flags(awaits, given);
  }

  /** How the two parts grow with one more argument. */
  lemma {:induction false} PartsAppend(argv: seq<string>, arg: string)
    ensures var more, n := argv + [arg], SeparatorAt(argv);
            && (SeparatorAt(more) < |more| <==> n < |argv| || arg == SEPARATOR)
            && LintPart(more) == (if n < |argv| || arg == SEPARATOR then LintPart(argv) else LintPart(argv) + [arg])
            && CargoPart(more) == (if n < |argv| then CargoPart(argv) + [arg] else [])
  {
    var more, n := argv + [arg], SeparatorAt(argv);
    assert more[|argv|] == arg && forall i :: 0 <= i < |argv| ==> more[i] == argv[i];
    if n < |argv| {
      SeparatorIs(more, n);
      assert more[..n] == argv[..n] && more[n + 1..] == argv[n + 1..] + [arg];
    } else if arg == SEPARATOR {
      SeparatorIs(more, n);
      assert more[..n] == argv[..n] && more[n + 1..] == [];
    } else {
      assert argv[..n] == argv && more[..|more|] == more;
    }
  }

  lemma {:induction false} SeparatorIs(argv: seq<string>, n: nat)
    requires n < |argv| && argv[n] == SEPARATOR && forall i :: 0 <= i < n ==> argv[i] != SEPARATOR
    ensures SeparatorAt(argv) == n
  {
  }

  /** One argument taken by the parser, given whether it is past the separator. */
  function Taken(p: Parsed, afterSeparator: bool, arg: string): Parsed {
    if afterSeparator then
      p.(cargoArgs := p.cargoArgs + [arg], targetSelection := p.targetSelection || SelectsTarget(arg))
    else if arg == SEPARATOR then p
    else p.(lintArgs := p.lintArgs + [arg], flags := See(p.flags, arg))
  }

  predicate PastSeparator(argv: seq<string>) {
    SeparatorAt(argv) < |argv|
  }

  lemma {:induction false} ParseAppend(argv: seq<string>, arg: string)
    ensures Parse(argv + [arg]) == Taken(Parse(argv), PastSeparator(argv), arg)
    ensures PastSeparator(argv + [arg]) <==> PastSeparator(argv) || arg == SEPARATOR
  {
    PartsAppend(argv, arg);
    var lint, cargo := LintPart(argv), CargoPart(argv);
    assert Front(lint + [arg]) == lint && Last(lint + [arg]) == arg;
    assert Front(cargo + [arg]) == cargo && Last(cargo + [arg]) == arg;
    assert !PastSeparator(argv) ==> cargo == [];
  }

  lemma {:induction false} ParseNext(argv: seq<string>, i: nat)
    requires i < |argv|
    ensures Parse(argv[..i + 1]) == Taken(Parse(argv[..i]), PastSeparator(argv[..i]), argv[i])
    ensures PastSeparator(argv[..i + 1]) <==> PastSeparator(argv[..i]) || argv[i] == SEPARATOR
  {
    PrefixGrows(argv, i);
    ParseAppend(argv[..i], argv[i]);
  }

  /** The body of the loop. */
  method TakeArg(before: Parsed, past: bool, arg: string) returns (parsed: Parsed, afterSeparator: bool)
    ensures parsed == Taken(before, past, arg)
    ensures afterSeparator <==> past || arg == SEPARATOR
  {
    parsed, afterSeparator := before, past;
    if afterSeparator {
      parsed := parsed.(cargoArgs := parsed.cargoArgs + [arg]);
      if SelectsTarget(arg) {
        parsed := parsed.(targetSelection := true);
      }
    } else if arg == SEPARATOR {
      afterSeparator := true;
    } else {
      parsed := parsed.(lintArgs := parsed.lintArgs + [arg]);
      var flags := Record(parsed.flags, arg);
      parsed := parsed.(flags := flags);
    }
  }

  method ParseWrapperArgs(argv: seq<string>) returns (parsed: Parsed)
    ensures parsed == Parse(argv)
  {
    parsed := Parsed([], [], NO_FLAGS, false);
    var afterSeparator := false;
    for i := 0 to |argv|
      invariant parsed == Parse(argv[..i])
      invariant afterSeparator == PastSeparator(argv[..i])
    {
      ParseNext(argv, i);
      parsed, afterSeparator := TakeArg(parsed, afterSeparator, argv[i]);
    }
    assert argv[..|argv|] == argv;
  }

  function Prefix(p: Parsed, manifest: string): seq<string> {
    (if ManifestPath in p.flags.given then [] else [MANIFEST_PATH, manifest])
    + (if Package in p.flags.given || ManifestPath in p.flags.given then [] else [WORKSPACE])
    + (if NoDeps in p.flags.given then [] else [NO_DEPS])
  }

  function FinalCargo(p: Parsed): seq<string> {
    if Fix in p.flags.given || p.targetSelection then p.cargoArgs else p.cargoArgs + [ALL_TARGETS]
  }

  function Build(p: Parsed, manifest: string): seq<string> {
    Prefix(p, manifest) + p.lintArgs + (if |FinalCargo(p)| > 0 then [SEPARATOR] + FinalCargo(p) else [])
  }

  method BuildFinalArgs(parsed: Parsed, manifest: string) returns (finalArgs: seq<string>)
    ensures finalArgs == Build(parsed, manifest)
  {
    finalArgs := [];
    var cargoArgs := parsed.cargoArgs;
    if ManifestPath !in parsed.flags.given {
      finalArgs := finalArgs + [MANIFEST_PATH, manifest];
    }
    if Package !in parsed.flags.given && ManifestPath !in parsed.flags.given {
      finalArgs := finalArgs + [WORKSPACE];
    }
    if NoDeps !in parsed.flags.given {
      finalArgs := finalArgs + [NO_DEPS];
    }
    if Fix !in parsed.flags.given && !parsed.targetSelection {
      cargoArgs := cargoArgs + [ALL_TARGETS];
    }
    finalArgs := finalArgs + parsed.lintArgs;
    if |cargoArgs| > 0 {
      finalArgs := finalArgs + ([SEPARATOR] + cargoArgs);
    }
  }

  function Normalize(argv: seq<string>, manifest: string): seq<string> {
    Build(Parse(argv), manifest)
  }

  // ------------------------------------------------------------- normal form

  lemma {:induction false} SeparatorOf(lint: seq<string>, cargo: seq<string>)
    requires forall i :: 0 <= i < |lint| ==> lint[i] != SEPARATOR
    ensures LintPart(lint + (if |cargo| > 0 then [SEPARATOR] + cargo else [])) == lint
    ensures CargoPart(lint + (if |cargo| > 0 then [SEPARATOR] + cargo else [])) == cargo
  {
    var argv := lint + (if |cargo| > 0 then [SEPARATOR] + cargo else []);
    assert forall i :: 0 <= i < |lint| ==> argv[i] == lint[i];
    assert |cargo| > 0 ==> argv[|lint|] == SEPARATOR;
    assert SeparatorAt(argv) == |lint|;
  }

  lemma {:induction false} SeeAllAppend(f: Flags, a: seq<string>, b: seq<string>)
    ensures SeeAll(f, a + b) == SeeAll(SeeAll(f, a), b)
    decreases |b|
  {
    if |b| == 0 {
      assert a + b == a;
    } else {
      assert Front(a + b) == a + Front(b) && Last(a + b) == Last(b);
      SeeAllAppend(f, a, Front(b));
    }
  }

  /** Flags only accumulate, and what is awaited next depends on the arguments alone. */
  lemma {:induction false} SeeAllAccumulates(f: Flags, args: seq<string>)
    requires f.awaits == None
    ensures var g := SeeAll(NO_FLAGS, args); SeeAll(f, args) == Flags(g.awaits, f.given + g.given)
    decreases |args|
  {
    if |args| == 0 {
      assert f.given + {} == f.given;
    } else {
      SeeAllAccumulates(f, Front(args));
      SeeAccumulates(f.given, SeeAll(NO_FLAGS, Front(args)), MeaningOf(Last(args)));
    }
  }

  lemma {:induction false} SeeAccumulates(given: set<Flag>, g: Flags, m: Meaning)
    ensures SeeMeaning(Flags(g.awaits, given + g.given), m)
            == Flags(SeeMeaning(g, m).awaits, given + SeeMeaning(g, m).given)
  {
  }

  lemma {:induction false} SeeOne(f: Flags, a: string)
    ensures SeeAll(f, [a]) == See(f, a)
  {
  }

  /** The inserted options are complete, and say exactly what was missing. */
  lemma {:induction false} SeePrefix(p: Parsed, manifest: string)
    ensures SeeAll(NO_FLAGS, Prefix(p, manifest))
            == Flags(None, (if ManifestPath in p.flags.given then {} else {ManifestPath})
                           + (if ManifestPath in p.flags.given || Package in p.flags.given then {} else {Package})
                           + (if NoDeps in p.flags.given then {} else {NoDeps}))
  {
    var a := if ManifestPath in p.flags.given then [] else [MANIFEST_PATH, manifest];
    var b := if Package in p.flags.given || ManifestPath in p.flags.given then [] else [WORKSPACE];
    var c := if NoDeps in p.flags.given then [] else [NO_DEPS];
    SeeAllAppend(NO_FLAGS, a + b, c);
    SeeAllAppend(NO_FLAGS, a, b);
    if ManifestPath !in p.flags.given {
      assert a == [MANIFEST_PATH] + [manifest];
      SeeAllAppend(NO_FLAGS, [MANIFEST_PATH], [manifest]);
      SeeOne(NO_FLAGS, MANIFEST_PATH);
      SeeOne(NO_FLAGS.(awaits := Some(ManifestPath)), manifest);
    }
    SeeOne(SeeAll(NO_FLAGS, a), WORKSPACE);
    SeeOne(SeeAll(NO_FLAGS, a + b), NO_DEPS);
  }

  lemma {:induction false} FinalCargoSelects(p: Parsed)
    requires p.targetSelection == AnyTarget(p.cargoArgs)
    ensures Fix in p.flags.given || AnyTarget(FinalCargo(p))
  {
  }

  lemma {:induction false} PrefixHasNoSeparator(p: Parsed, manifest: string)
    requires manifest != SEPARATOR || ManifestPath in p.flags.given
    ensures forall i :: 0 <= i < |Prefix(p, manifest)| ==> Prefix(p, manifest)[i] != SEPARATOR
  {
  }

  lemma {:induction false} FlagsOfNormalForm(p: Parsed, manifest: string)
    requires p.flags == SeeAll(NO_FLAGS, p.lintArgs)
    ensures var g := SeeAll(NO_FLAGS, Prefix(p, manifest) + p.lintArgs);
            ManifestPath in g.given && NoDeps in g.given && (Fix in g.given <==> Fix in p.flags.given)
  {
    var pre := Prefix(p, manifest);
    SeePrefix(p, manifest);
    SeeAllAppend(NO_FLAGS, pre, p.lintArgs);
    SeeAllAccumulates(SeeAll(NO_FLAGS, pre), p.lintArgs);
  }

  /** Parsing the normal form finds the user's arguments again, with everything settled. */
  lemma {:induction false} ParseOfNormalForm(argv: seq<string>, manifest: string)
    requires manifest != SEPARATOR || ManifestPath in Parse(argv).flags.given
    ensures var p, q := Parse(argv), Parse(Normalize(argv, manifest));
            && q.lintArgs == Prefix(p, manifest) + p.lintArgs
            && q.cargoArgs == FinalCargo(p)
            && ManifestPath in q.flags.given && NoDeps in q.flags.given
            && (Fix in q.flags.given <==> Fix in p.flags.given)
            && (Fix in q.flags.given || q.targetSelection)
  {
    var p := Parse(argv);
    PrefixHasNoSeparator(p, manifest);
    SeparatorOf(Prefix(p, manifest) + p.lintArgs, FinalCargo(p));
    FlagsOfNormalForm(p, manifest);
    FinalCargoSelects(p);
  }

  /** When everything is settled, building changes nothing. */
  lemma {:induction false} BuildSettled(q: Parsed, manifest: string)
    requires ManifestPath in q.flags.given && NoDeps in q.flags.given && (Fix in q.flags.given || q.targetSelection)
    ensures Build(q, manifest) == q.lintArgs + (if |q.cargoArgs| > 0 then [SEPARATOR] + q.cargoArgs else [])
  {
  }

  /** With the separator as manifest path, another prefix is added every time. */
  lemma {:induction false} SeparatorAsManifestGrows(argv: seq<string>)
    requires ManifestPath !in Parse(argv).flags.given
    ensures |Normalize(Normalize(argv, SEPARATOR), SEPARATOR)| > |Normalize(argv, SEPARATOR)|
  {
    var once := Normalize(argv, SEPARATOR);
    assert once[0] == MANIFEST_PATH && once[1] == SEPARATOR;
    assert SeparatorAt(once) == 1;
    var q := Parse(once);
    assert q.lintArgs == [MANIFEST_PATH] && |q.cargoArgs| == |once| - 2;
    SeeOne(NO_FLAGS, MANIFEST_PATH);
  }

  /**
    Argument normal form. Normalising twice is normalising once, for every argument list -
    unless the manifest path is itself `--` and has to be inserted, in which case it never is.
   */
  lemma {:induction false} NormalizeIdempotent(argv: seq<string>, manifest: string)
    ensures Normalize(Normalize(argv, manifest), manifest) == Normalize(argv, manifest)
            <==> manifest != SEPARATOR || ManifestPath in Parse(argv).flags.given
  {
    if manifest != SEPARATOR || ManifestPath in Parse(argv).flags.given {
      ParseOfNormalForm(argv, manifest);
      BuildSettled(Parse(Normalize(argv, manifest)), manifest);
    } else {
      SeparatorAsManifestGrows(argv);
    }
  }
}
