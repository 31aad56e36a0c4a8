/** Jobs started by an older version: their request is rebuilt from the stored specification
    and standard input file, and normalised again, before their key is migrated. */
module LegacyJob {
  import opened Common
  import opened Requests
  import Base64
  import NameOrder

  /** `spec.json` as it is decoded: empty optional fields are not stored. */
  datatype Spec = Spec(
    command: Option<string>,
    argv: Option<seq<string>>,
    cwd: string,
    env: Option<Environment>,
    unsetEnv: Option<seq<string>>,
    stdinPath: string,
    timeoutMs: int)

  /** A job directory: its specification and its standard input file. */
  datatype Stored = Stored(spec: Spec, stdin: Option<seq<Byte>>)

  function StdinPath(directory: string): string {
    directory + "/stdin"
  }

  predicate HasStdin(args: Args) {
    args.stdin.Some? || args.stdinBase64.Some?
  }

  /** What starting a job with these arguments writes into its directory. */
  function Store(directory: string, args: Args): Stored
    requires ValidJob(args)
  {
    Stored(
      Spec(args.command, args.argv, Cwd(args),
           if args.Additions() == map[] then None else args.env,
           if args.Removals() == [] then None else args.unsetEnv,
           if HasStdin(args) then StdinPath(directory) else "",
           args.timeoutMs),
      if HasStdin(args) then Some(Stdin(args).value) else None)
  }

  /** What decoding a specification checks. */
  predicate ValidSpec(spec: Spec) {
    && spec.command.Some? != spec.argv.Some?
    && (spec.argv.Some? ==> spec.argv.value != [] && spec.argv.value[0] != "")
    && 0 <= spec.timeoutMs <= MAX_DURATION
    && ValidEnvironment(Args(None, None, "", spec.env, spec.unsetEnv, None, None, 0, 0))
    && NUL !in spec.cwd && NUL !in spec.stdinPath
  }

  /** The request that a job directory stands for, with nothing but canonical base64. */
  function Rebuild(directory: string, stored: Stored): Result<Args> {
    var spec := stored.spec;
    if !ValidSpec(spec) then Err
    else if spec.stdinPath != "" && (spec.stdinPath != StdinPath(directory) || stored.stdin.None?) then Err
    else
      var stdin := if spec.stdinPath == "" then [] else stored.stdin.value;
      Ok(Args(
        spec.command,
        if spec.command.Some? then None else spec.argv,
        if spec.cwd == "" then DEFAULT_CWD else spec.cwd,
        if spec.env.Some? && spec.env.value != map[] then spec.env else None,
        if spec.unsetEnv.Some? && spec.unsetEnv.value != [] then spec.unsetEnv else None,
        None,
        if stdin == [] then None else Some(Base64.Encode(stdin)),
        spec.timeoutMs, 0))
  }

  /** The public schema of a `job.start`, as far as a decoded request can violate it: names to
      unset are nonempty and distinct, and present strings and lists are nonempty. */
  predicate MatchesSchema(args: Args) {
    && (args.command.Some? != args.argv.Some?)
    && (args.argv.Some? ==> args.argv.value != [] && args.argv.value[0] != "")
    && args.cwd != ""
    && Distinct(args.Removals()) && (forall i :: 0 <= i < |args.Removals()| ==> args.Removals()[i] != "")
    && (args.stdinBase64.Some? ==> args.stdinBase64.value != "" && args.stdin.None?)
    && args.timeoutMs >= 0
  }

  /** The normal form that the migration computes from a job directory. */
  function LegacyNormal(directory: string, stored: Stored): Result<Args> {
    var raw := Rebuild(directory, stored);
    if raw.Err? || !MatchesSchema(raw.value) then Err else NormalJob(raw.value)
  }

  lemma RebuildsStored(directory: string, args: Args)
    requires ValidJob(args) && NUL !in directory
    ensures Rebuild(directory, Store(directory, args)).Ok?
    ensures var raw := Rebuild(directory, Store(directory, args)).value;
            ValidJob(raw) && SameSpelling(raw, args) && raw.timeoutMs == args.timeoutMs
            && raw.Removals() == args.Removals() && raw.cwd != "" && raw.stdin.None?
                && (raw.stdinBase64.Some? ==> raw.stdinBase64.value != "")
  {
    var stored := Store(directory, args);
    var spec := stored.spec;
    assert ValidSpec(spec) by {
      var shown := Args(None, None, "", spec.env, spec.unsetEnv, None, None, 0, 0);
      assert shown.Additions() == args.Additions() && shown.Removals() == args.Removals();
    }
    var raw := Rebuild(directory, stored).value;
    assert raw.Additions() == args.Additions() && raw.Removals() == args.Removals();
    Base64.DecodeEncode(Stdin(args).value);
    assert Stdin(raw) == Stdin(args);
  }

  /** The rebuilt request has the normal form of the original arguments exactly when these
      named no variable twice in `unset_env`; otherwise the rebuilt request does not match
      the public schema and the migration reports an uncertain prior execution. */
  lemma LegacyRoundTripExactly(directory: string, args: Args)
    requires ValidJob(args) && NUL !in directory
    ensures LegacyNormal(directory, Store(directory, args)) == NormalJob(args) <==> Distinct(args.Removals())
    ensures LegacyNormal(directory, Store(directory, args)).Err? <==> !Distinct(args.Removals())
  {
    RebuildsStored(directory, args);
    var raw := Rebuild(directory, Store(directory, args)).value;
    NormalJobIsCanonical(raw, args);
    forall i | 0 <= i < |raw.Removals()| ensures raw.Removals()[i] != "" {
      assert raw.Removals()[i] in NameOrder.Names(raw.Removals());
    }
  }

  /** A request is migrated to a legacy job exactly when it is the request of that job up to
      spelling, and the job was not started with a variable named twice in `unset_env`. */
  lemma MigratesExactlyMatching(directory: string, original: Args, request: Args)
    requires ValidJob(original) && ValidJob(request) && NUL !in directory
    ensures LegacyNormal(directory, Store(directory, original)) == NormalJob(request) <==>
            (Distinct(original.Removals()) && SameSpelling(original, request)
             && original.timeoutMs == request.timeoutMs)
  {
    LegacyRoundTripExactly(directory, original);
    NormalJobIsCanonical(original, request);
  }

  /** A job directory stands for a request exactly if its specification is valid and its standard
      input, if it has one, is the file in that very directory and can be read. */
  lemma RebuildsExactly(directory: string, stored: Stored)
    ensures Rebuild(directory, stored).Ok? <==>
            && ValidSpec(stored.spec)
            && (stored.spec.stdinPath == "" || (stored.spec.stdinPath == directory + "/stdin" && stored.stdin.Some?))
    ensures ValidSpec(stored.spec) <==>
            && (stored.spec.command.Some? <==> stored.spec.argv.None?)
            && (stored.spec.argv.Some? ==> |stored.spec.argv.value| > 0 && stored.spec.argv.value[0] != "")
            && 0 <= stored.spec.timeoutMs <= 9223372036854
            && ValidEnvironment(Args(None, None, "", stored.spec.env, stored.spec.unsetEnv, None, None, 0, 0))
            && '\0' !in stored.spec.cwd && '\0' !in stored.spec.stdinPath
  {
  }
}
