/** The normal form of `run` and `job.start` requests, to which an idempotency key is bound.

    Absent optional fields are `None`. Text standard input is given as its bytes. */
module Requests {
  import opened Common
  import Base64
  import NameOrder

  const DEFAULT_CWD := "/root"
  const DEFAULT_MAX_OUTPUT := 1048576
  const MAX_DIRECT_CALL := 90_000              // milliseconds
  const MAX_DURATION := 9_223_372_036_854      // milliseconds in a 64-bit count of nanoseconds
  const NUL := '\0'

  type Environment = map<string, string>

  /** A `job.start` has no output limit: there `maxOutput` is zero. */
  datatype Args = Args(
    command: Option<string>,
    argv: Option<seq<string>>,
    cwd: string,
    env: Option<Environment>,
    unsetEnv: Option<seq<string>>,
    stdin: Option<seq<Byte>>,
    stdinBase64: Option<string>,
    timeoutMs: int,
    maxOutput: int)
  {
    function Additions(): Environment {
      if env.Some? then env.value else map[]
    }

    function Removals(): seq<string> {
      if unsetEnv.Some? then unsetEnv.value else []
    }
  }

  predicate ValidName(name: string) {
    name != "" && '=' !in name && NUL !in name
  }

  // ----- what a request means -----

  /** The standard input a request supplies; none counts as empty. */
  function Stdin(args: Args): Result<seq<Byte>> {
    if args.stdin.Some? then Ok(args.stdin.value)
    else if args.stdinBase64.None? then Ok([])
    else Base64.Decode(args.stdinBase64.value)
  }

  predicate ValidEnvironment(args: Args) {
    && (forall name :: name in NameOrder.Names(args.Removals()) ==> ValidName(name))
    && (forall name :: name in args.Additions() ==> ValidName(name) && NUL !in args.Additions()[name])
  }

  /** The variables of the started process. */
  function Built(base: Environment, args: Args): Environment {
    (base - NameOrder.Names(args.Removals())) + args.Additions()
  }

  predicate OneProgram(args: Args) {
    && (args.command.Some? != args.argv.Some?)
    && (args.argv.Some? ==> args.argv.value != [] && args.argv.value[0] != "")
    && !(args.stdin.Some? && args.stdinBase64.Some?)
  }

  predicate ValidRun(args: Args) {
    OneProgram(args) && Stdin(args).Ok? && ValidEnvironment(args) && 0 <= args.timeoutMs <= MAX_DIRECT_CALL
        && args.maxOutput >= 0
  }

  predicate ValidJob(args: Args) {
    OneProgram(args) && NUL !in args.cwd && Stdin(args).Ok? && ValidEnvironment(args)
        && 0 <= args.timeoutMs <= MAX_DURATION && args.maxOutput == 0
  }

  function Cwd(args: Args): string {
    if args.cwd == "" then DEFAULT_CWD else args.cwd
  }

  /** What a process is started with. */
  datatype Process = Process(
    command: Option<string>, argv: Option<seq<string>>, cwd: string, environment: Environment, stdin: seq<Byte>,
    timeoutMs: int, maxOutput: int)

  /** The process that a `run` starts; zero means the default limit. */
  function RunProcess(base: Environment, args: Args): Result<Process> {
    if !ValidRun(args) then Err
    else Ok(Process(args.command, args.argv, Cwd(args), Built(base, args), Stdin(args).value,
                    if args.timeoutMs == 0 then MAX_DIRECT_CALL else args.timeoutMs,
                    if args.maxOutput == 0 then DEFAULT_MAX_OUTPUT else args.maxOutput))
  }

  /** The process that a `job.start` starts; a zero timeout means none. */
  function JobProcess(base: Environment, args: Args): Result<Process> {
    if !ValidJob(args) then Err
    else Ok(Process(args.command, args.argv, Cwd(args), Built(base, args), Stdin(args).value, args.timeoutMs, 0))
  }

  // ----- building the environment -----

  method RemoveVariables(base: Environment, removals: seq<string>) returns (r: Result<Environment>)
    ensures r.Ok? <==> forall name :: name in NameOrder.Names(removals) ==> ValidName(name)
    ensures r.Ok? ==> r.value == base - NameOrder.Names(removals)
  {
    var values := base;
    for k := 0 to |removals|
      invariant forall name :: name in NameOrder.Names(removals[..k]) ==> ValidName(name)
      invariant values == base - NameOrder.Names(removals[..k])
    {
      if !ValidName(removals[k]) {
        assert removals[k] in NameOrder.Names(removals);
        return Err;
      }
      assert removals[..k + 1] == removals[..k] + [removals[k]];
      NameOrder.NamesConcat(removals[..k], [removals[k]]);
      values := values - {removals[k]};
    }
    assert removals[..|removals|] == removals;
    r := Ok(values);
  }

  method AddVariables(base: Environment, additions: Environment) returns (r: Result<Environment>)
    ensures r.Ok? <==> forall name :: name in additions ==> ValidName(name) && NUL !in additions[name]
    ensures r.Ok? ==> r.value == base + additions
  {
    var values, pending := base, additions.Keys;
    while pending != {}
      invariant pending <= additions.Keys
      invariant forall name :: name in additions.Keys - pending ==> ValidName(name) && NUL !in additions[name]
      invariant values.Keys == base.Keys + (additions.Keys - pending)
      invariant forall name :: name in values ==>
                values[name] == if name in additions.Keys - pending then additions[name] else base[name]
      decreases |pending|
    {
      var name :| name in pending;
      if !ValidName(name) || NUL in additions[name] { return Err; }
      values := values[name := additions[name]];
      pending := pending - {name};
    }
    assert values == base + additions;
    r := Ok(values);
  }

  /** The environment of a process: removals first, then additions. */
  method BuildEnvironment(base: Environment, args: Args) returns (r: Result<Environment>)
    ensures r == if ValidEnvironment(args) then Ok(Built(base, args)) else Err
  {
    r := RemoveVariables(base, args.Removals());
    if r.Err? { return; }
    r := AddVariables(r.value, args.Additions());
  }

  // ----- normalisation -----

  function WithStdin(args: Args, stdin: seq<Byte>): Args {
    args.(stdin := None, stdinBase64 := if stdin == [] then None else Some(Base64.Encode(stdin)))
  }

  function WithEnvironment(args: Args): Args {
    args.(env := if args.Additions() == map[] then None else args.env,
          unsetEnv := if args.Removals() == [] then None else Some(NameOrder.Canonical(args.Removals())))
  }

  /** The normal form of what every request has in common: base64 standard input or none,
      an environment or none, and a sorted list of names to unset or none. */
  function Plain(args: Args, stdin: seq<Byte>): Args {
    WithEnvironment(WithStdin(args, stdin)).(cwd := Cwd(args))
  }

  function NormalRun(args: Args): Result<Args> {
    if !ValidRun(args) then Err
    else Ok(Plain(args, Stdin(args).value).(
              timeoutMs := if args.timeoutMs == 0 then MAX_DIRECT_CALL else args.timeoutMs,
              maxOutput := if args.maxOutput == 0 then DEFAULT_MAX_OUTPUT else args.maxOutput))
  }

  function NormalJob(args: Args): Result<Args> {
    if !ValidJob(args) then Err else Ok(Plain(args, Stdin(args).value))
  }

  /** A canonical environment is as valid as the original and builds the same variables. */
  lemma SameEnvironment(base: Environment, args: Args, canonical: Args)
    requires canonical.env == if args.Additions() == map[] then None else args.env
    requires canonical.unsetEnv == if args.Removals() == [] then None else Some(NameOrder.Canonical(args.Removals()))
    ensures ValidEnvironment(canonical) <==> ValidEnvironment(args)
    ensures Built(base, canonical) == Built(base, args)
  {
    assert canonical.Additions() == args.Additions();
    assert NameOrder.Names(canonical.Removals()) == NameOrder.Names(args.Removals());
  }

  lemma StdinApart(args: Args)
    ensures Stdin(args).Ok? ==> (ValidEnvironment(WithStdin(args, Stdin(args).value)) <==> ValidEnvironment(args))
  {
    if Stdin(args).Ok? {
      var other := WithStdin(args, Stdin(args).value);
      assert other.Removals() == args.Removals() && other.Additions() == args.Additions();
    }
  }

  /** The decoded arguments of one call, which the normalisers rewrite in place. When a
      normaliser refuses them the caller drops them. */
  class Arguments {
    var args: Args

    constructor (args: Args)
      ensures this.args == args
    {
      this.args := args;
    }

    /** An empty environment becomes none, and the names to unset a sorted list or none. */
    method CanonicalizeEnvironment()
      modifies this
      ensures args == WithEnvironment(old(args))
    {
      if args.env.Some? && args.env.value == map[] {
        args := args.(env := None);
      }
      if args.unsetEnv.None? || args.unsetEnv.value == [] {
        args := args.(unsetEnv := None);
        return;
      }
      var ordered := NameOrder.SortStrings(args.unsetEnv.value);
      ghost var before := ordered[..];
      var n := NameOrder.DedupeInPlace(ordered);
      NameOrder.CanonicalExactly(before, args.unsetEnv.value);
      args := args.(unsetEnv := Some(ordered[..n]));
    }

    /** Replaces either form of standard input by its canonical base64, or by none. */
    method NormalizeStdin() returns (ok: bool)
      modifies this
      ensures ok == Stdin(old(args)).Ok?
      ensures ok ==> args == WithStdin(old(args), Stdin(old(args)).value)
    {
      var stdin := Stdin(args);
      if stdin.Err? { return false; }
      args := args.(stdin := None, stdinBase64 := None);
      if |stdin.value| > 0 {
        args := args.(stdinBase64 := Some(Base64.Encode(stdin.value)));
      }
      ok := true;
    }

    /** Normalises a `run` step by step; `base` is the environment of the service itself. */
    method NormalizeRun(base: Environment) returns (ok: bool)
      modifies this
      ensures ok == NormalRun(old(args)).Ok?
      ensures ok ==> args == NormalRun(old(args)).value
    {
      hide NameOrder.Canonical, Base64.Encode, Base64.Decode, NameOrder.Names, Stdin;
      StdinApart(args);
      hide ValidEnvironment;
      if args.command.Some? == args.argv.Some? { return false; }
      if args.argv.Some? && (args.argv.value == [] || args.argv.value[0] == "") { return false; }
      if args.stdin.Some? && args.stdinBase64.Some? { return false; }
      ok := NormalizeStdin();
      if !ok { return; }
      ok := CheckCanonical(base);
      if !ok { return; }
      if args.timeoutMs < 0 || args.timeoutMs > MAX_DURATION || args.timeoutMs > MAX_DIRECT_CALL { return false; }
      if args.maxOutput < 0 { return false; }
      FillDefaults();
    }

    /** Canonicalises the environment and checks that it can be built. */
    method CheckCanonical(base: Environment) returns (ok: bool)
      modifies this
      ensures args == WithEnvironment(old(args)) && ok == ValidEnvironment(old(args))
    {
      CanonicalizeEnvironment();
      SameEnvironment(base, old(args), args);
      var built := BuildEnvironment(base, args);
      ok := built.Ok?;
    }

    method FillDefaults()
      modifies this
      ensures var before := old(args);
              args == before.(cwd := Cwd(before),
                              timeoutMs := if before.timeoutMs == 0 then MAX_DIRECT_CALL else before.timeoutMs,
                              maxOutput := if before.maxOutput == 0 then DEFAULT_MAX_OUTPUT else before.maxOutput)
    {
      if args.cwd == "" { args := args.(cwd := DEFAULT_CWD); }
      if args.timeoutMs == 0 { args := args.(timeoutMs := MAX_DIRECT_CALL); }
      if args.maxOutput == 0 { args := args.(maxOutput := DEFAULT_MAX_OUTPUT); }
    }

    /** Normalises a `job.start`; here the environment is checked before it is rewritten. */
    method NormalizeJobStart(base: Environment) returns (ok: bool)
      modifies this
      ensures ok == NormalJob(old(args)).Ok?
      ensures ok ==> args == NormalJob(old(args)).value
    {
      hide NameOrder.Canonical, Base64.Encode, Base64.Decode, NameOrder.Names;
      if args.command.Some? == args.argv.Some? { return false; }
      if args.argv.Some? && (args.argv.value == [] || args.argv.value[0] == "") { return false; }
      if NUL in args.cwd { return false; }
      if args.stdin.Some? && args.stdinBase64.Some? { return false; }
      if args.timeoutMs < 0 || args.timeoutMs > MAX_DURATION || args.maxOutput != 0 { return false; }
      var built := BuildEnvironment(base, args);
      if built.Err? { return false; }
      ok := NormalizeStdin();
      if !ok { return; }
      CanonicalizeEnvironment();
      if args.cwd == "" { args := args.(cwd := DEFAULT_CWD); }
    }
  }

  // ----- the normal form keeps the meaning and is canonical -----

  lemma PlainKeeps(base: Environment, args: Args, stdin: seq<Byte>)
    requires Stdin(args) == Ok(stdin)
    ensures Stdin(Plain(args, stdin)) == Ok(stdin)
    ensures ValidEnvironment(Plain(args, stdin)) <==> ValidEnvironment(args)
    ensures Built(base, Plain(args, stdin)) == Built(base, args)
    ensures Plain(Plain(args, stdin), stdin) == Plain(args, stdin)
  {
    Base64.DecodeEncode(stdin);
    SameEnvironment(base, args, Plain(args, stdin));
    NameOrder.CanonicalExactly(args.Removals(), args.Removals());
    if args.Removals() != [] { assert args.Removals()[0] in NameOrder.Names(NameOrder.Canonical(args.Removals())); }
  }

  lemma LimitsApart(base: Environment, args: Args, timeoutMs: int, maxOutput: int)
    ensures var other := args.(timeoutMs := timeoutMs, maxOutput := maxOutput);
            && Stdin(other) == Stdin(args) && Built(base, other) == Built(base, args)
            && (ValidEnvironment(other) <==> ValidEnvironment(args))
            && forall stdin :: Plain(other, stdin) ==
                Plain(args, stdin).(timeoutMs := timeoutMs, maxOutput := maxOutput)
  {
    var other := args.(timeoutMs := timeoutMs, maxOutput := maxOutput);
    assert other.Removals() == args.Removals() && other.Additions() == args.Additions();
  }

  /** Normalising a `run` changes nothing about the process it starts, whatever environment
      the service runs in, and normalising again changes nothing at all. */
  lemma NormalRunKeepsMeaning(base: Environment, args: Args)
    ensures NormalRun(args).Ok? <==> RunProcess(base, args).Ok?
    ensures NormalRun(args).Ok? ==>
              RunProcess(base, NormalRun(args).value) == RunProcess(base, args)
              && NormalRun(NormalRun(args).value) == NormalRun(args)
  {
    if ValidRun(args) {
      var plain := Plain(args, Stdin(args).value);
      PlainKeeps(base, args, Stdin(args).value);
      LimitsApart(base, plain, NormalRun(args).value.timeoutMs, NormalRun(args).value.maxOutput);
      hide Stdin, ValidEnvironment, Built;
      assert plain.cwd != "";
    }
  }

  lemma NormalJobKeepsMeaning(base: Environment, args: Args)
    ensures NormalJob(args).Ok? <==> JobProcess(base, args).Ok?
    ensures NormalJob(args).Ok? ==>
              JobProcess(base, NormalJob(args).value) == JobProcess(base, args)
              && NormalJob(NormalJob(args).value) == NormalJob(args)
  {
    if ValidJob(args) { PlainKeeps(base, args, Stdin(args).value); }
  }

  /** The differences between two spellings that must not matter: text or base64 input with
      the same bytes, order and repetition of names to unset, an empty or absent
      environment, an absent or default directory. */
  predicate SameSpelling(a: Args, b: Args) {
    && a.command == b.command && a.argv == b.argv && Cwd(a) == Cwd(b)
    && a.Additions() == b.Additions() && NameOrder.Names(a.Removals()) == NameOrder.Names(b.Removals())
    && Stdin(a) == Stdin(b)
  }

  lemma PlainExactly(a: Args, b: Args)
    requires Stdin(a).Ok? && Stdin(b).Ok?
    ensures Plain(a, Stdin(a).value).(timeoutMs := 0, maxOutput := 0) ==
              Plain(b, Stdin(b).value).(timeoutMs := 0, maxOutput := 0)
            <==> SameSpelling(a, b)
  {
    var x, y := Plain(a, Stdin(a).value), Plain(b, Stdin(b).value);
    NameOrder.CanonicalExactly(a.Removals(), b.Removals());
    assert a.Removals() != [] ==> a.Removals()[0] in NameOrder.Names(a.Removals());
    assert b.Removals() != [] ==> b.Removals()[0] in NameOrder.Names(b.Removals());
    Base64.DecodeEncode(Stdin(a).value);
    Base64.DecodeEncode(Stdin(b).value);
  }

  /** Two valid `run` requests have one normal form exactly when they differ in nothing but
      spelling and explicit defaults. */
  lemma NormalRunIsCanonical(a: Args, b: Args)
    requires ValidRun(a) && ValidRun(b)
    ensures NormalRun(a) == NormalRun(b) <==>
            SameSpelling(a, b)
            && (a.timeoutMs == b.timeoutMs || {a.timeoutMs, b.timeoutMs} == {0, MAX_DIRECT_CALL})
            && (a.maxOutput == b.maxOutput || {a.maxOutput, b.maxOutput} == {0, DEFAULT_MAX_OUTPUT})
  {
    PlainExactly(a, b);
    var x, y := NormalRun(a).value, NormalRun(b).value;
    assert x.(timeoutMs := 0, maxOutput := 0) == Plain(a, Stdin(a).value).(timeoutMs := 0, maxOutput := 0);
    assert y.(timeoutMs := 0, maxOutput := 0) == Plain(b, Stdin(b).value).(timeoutMs := 0, maxOutput := 0);
    OneDefault(a.timeoutMs, b.timeoutMs, MAX_DIRECT_CALL);
    OneDefault(a.maxOutput, b.maxOutput, DEFAULT_MAX_OUTPUT);
  }

  lemma OneDefault(a: int, b: int, default': int)
    requires default' != 0
    ensures (if a == 0 then default' else a) == (if b == 0 then default' else b) <==> a == b || {a, b} == {0, default'}
  {
    if {a, b} == {0, default'} { assert a in {0, default'} && b in {0, default'} && 0 in {a, b} && default' in {a, b}; }
    if (a == 0 && b == default') || (b == 0 && a == default') { assert {a, b} == {0, default'}; }
  }

  lemma NormalJobIsCanonical(a: Args, b: Args)
    requires ValidJob(a) && ValidJob(b)
    ensures NormalJob(a) == NormalJob(b) <==> SameSpelling(a, b) && a.timeoutMs == b.timeoutMs
  {
    PlainExactly(a, b);
    var x, y := NormalJob(a).value, NormalJob(b).value;
    assert x == x.(timeoutMs := 0, maxOutput := 0).(timeoutMs := a.timeoutMs);
    assert y == y.(timeoutMs := 0, maxOutput := 0).(timeoutMs := b.timeoutMs);
  }

  // ----- what is accepted, and what it means -----

  /** The variables of a started process: what is added counts, then what is inherited and not
      removed. */
  lemma EnvironmentExactly(base: Environment, args: Args, name: string)
    ensures var removed := args.unsetEnv.Some? && name in args.unsetEnv.value;
            var added := args.env.Some? && name in args.env.value;
            && (name in Built(base, args) <==> added || (name in base && !removed))
            && (added ==> Built(base, args)[name] == args.env.value[name])
            && (name in base && !removed && !added ==> Built(base, args)[name] == base[name])
  {
  }

  /** An environment is refused exactly for a name that is empty or holds an equals sign or a NUL,
      or for a value that holds a NUL. */
  lemma EnvironmentAcceptedExactly(args: Args)
    ensures ValidEnvironment(args) <==>
            && (args.unsetEnv.Some? ==>
                  forall name :: name in args.unsetEnv.value ==> name != "" && '=' !in name && '\0' !in name)
            && (args.env.Some? ==>
                  forall name :: name in args.env.value ==>
                    name != "" && '=' !in name && '\0' !in name && '\0' !in args.env.value[name])
  {
    assert forall name :: name in args.Additions() <==> args.env.Some? && name in args.env.value;
    forall name
      ensures name in NameOrder.Names(args.Removals()) <==> args.unsetEnv.Some? && name in args.unsetEnv.value
    {
    }
    assert (forall name :: name in NameOrder.Names(args.Removals()) ==> ValidName(name)) <==>
           (args.unsetEnv.Some? ==> forall name :: name in args.unsetEnv.value ==> ValidName(name));
  }

  /** Text counts as itself, base64 as what it decodes to, and neither as nothing. */
  lemma StdinExactly(args: Args)
    ensures args.stdin.Some? ==> Stdin(args) == Ok(args.stdin.value)
    ensures args.stdin.None? && args.stdinBase64.Some? ==> Stdin(args) == Base64.Decode(args.stdinBase64.value)
    ensures args.stdin.None? && args.stdinBase64.None? ==> Stdin(args) == Ok([])
  {
  }

  /** A `run` is accepted exactly with one of a command and an executable name, at most one form
      of standard input that can be decoded, a good environment, and limits in range. */
  lemma RunsAcceptedExactly(args: Args)
    ensures NormalRun(args).Ok? <==>
            && (args.command.Some? <==> args.argv.None?)
            && (args.argv.Some? ==> |args.argv.value| > 0 && args.argv.value[0] != "")
            && (args.stdin.None? || args.stdinBase64.None?)
            && (args.stdinBase64.Some? ==> Base64.Decode(args.stdinBase64.value).Ok?)
            && ValidEnvironment(args) && 0 <= args.timeoutMs <= 90000 && 0 <= args.maxOutput
  {
  }

  lemma JobsAcceptedExactly(args: Args)
    ensures NormalJob(args).Ok? <==>
            && (args.command.Some? <==> args.argv.None?)
            && (args.argv.Some? ==> |args.argv.value| > 0 && args.argv.value[0] != "")
            && (args.stdin.None? || args.stdinBase64.None?)
            && (args.stdinBase64.Some? ==> Base64.Decode(args.stdinBase64.value).Ok?)
            && ValidEnvironment(args) && '\0' !in args.cwd
            && 0 <= args.timeoutMs <= 9223372036854 && args.maxOutput == 0
  {
  }

  /** The process of an accepted `run`: what was asked for, and for what was left open the home
      directory of the superuser, ninety seconds and one mebibyte of output. */
  lemma RunProcessExactly(base: Environment, args: Args)
    requires NormalRun(args).Ok?
    ensures RunProcess(base, args) ==
            Ok(Process(args.command, args.argv, if args.cwd == "" then "/root" else args.cwd, Built(base, args),
                       Stdin(args).value, if args.timeoutMs == 0 then 90000 else args.timeoutMs,
                       if args.maxOutput == 0 then 1024 * 1024 else args.maxOutput))
  {
  }

  lemma JobProcessExactly(base: Environment, args: Args)
    requires NormalJob(args).Ok?
    ensures JobProcess(base, args) ==
            Ok(Process(args.command, args.argv, if args.cwd == "" then "/root" else args.cwd, Built(base, args),
                       Stdin(args).value, args.timeoutMs, 0))
  {
  }
}
