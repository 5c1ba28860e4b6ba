/** The OpenAPI generation script of LolAPIService: its command-line
    parser, the settings it resolves from arguments, environment and
    defaults, and the list of source globs it hands to the documentation
    generator. Reading package.json, the generator itself and the file
    writes are left to the caller. */
module GenOpenapi {
  import opened Common

  const FlagPrefix: string := "--"
  const DefaultTitle: string := "FIT.LOL LolAPIService"
  const DefaultPort: string := "3001"
  const DefaultOut: string := "openapi.json"
  const DefaultDescription: string := "Riot API proxy with OIDC auth"
  const DefaultApis: seq<string> := ["src/**/*.js", "src/**/*.ts"]

  /** A parsed option: `true` for a flag without a value, or its text. */
  datatype ArgValue = Flag | Text(s: string)

  /** `next && !next.startsWith('--')`: the token after an option is its value. */
  predicate IsValue(next: string) {
    next != "" && !StartsWith(next, FlagPrefix)
  }

  /** The options gathered from position `i` on, onto `args`. */
  function ArgsFrom(argv: seq<string>, i: nat, args: map<string, ArgValue>): map<string, ArgValue>
    decreases |argv| - i
  {
    if i >= |argv| then args
    else if !StartsWith(argv[i], FlagPrefix) then ArgsFrom(argv, i + 1, args)
    else
      var key := argv[i][2..];
      if i + 1 < |argv| && IsValue(argv[i + 1]) then ArgsFrom(argv, i + 2, args[key := Text(argv[i + 1])])
      else ArgsFrom(argv, i + 1, args[key := Flag])
  }

  /** The options of a whole command line; the first two entries (the
      runtime and the script) are skipped. */
  function Args(argv: seq<string>): map<string, ArgValue> {
    ArgsFrom(argv, 2, map[])
  }

  /** `parseArgs(argv)` */
  method ParseArgs(argv: seq<string>) returns (args: map<string, ArgValue>)
    ensures args == Args(argv)
  {
    args := map[];
    var i := 2;
    while i < |argv|
      invariant 2 <= i
      invariant ArgsFrom(argv, i, args) == Args(argv)
      decreases |argv| - i
    {
      var a := argv[i];
      if StartsWith(a, FlagPrefix) {
        var key := a[2..];
        if i + 1 < |argv| && IsValue(argv[i + 1]) {
          args := args[key := Text(argv[i + 1])];
          i := i + 1;
        } else {
          args := args[key := Flag];
        }
      }
      i := i + 1;
    }
  }

  /** Options never set by the tokens from `i` on keep what they had. */
  lemma {:induction false} Untouched(argv: seq<string>, i: nat, args: map<string, ArgValue>, key: string)
    requires forall j :: i <= j < |argv| ==> argv[j] != FlagPrefix + key
    ensures key in ArgsFrom(argv, i, args) <==> key in args
    ensures key in args ==> ArgsFrom(argv, i, args)[key] == args[key]
    decreases |argv| - i
  {
    if i < |argv| && StartsWith(argv[i], FlagPrefix) {
      assert argv[i] == FlagPrefix + argv[i][2..];
      if i + 1 < |argv| && IsValue(argv[i + 1]) {
        Untouched(argv, i + 2, args[argv[i][2..] := Text(argv[i + 1])], key);
      } else {
        Untouched(argv, i + 1, args[argv[i][2..] := Flag], key);
      }
    } else if i < |argv| {
      Untouched(argv, i + 1, args, key);
    }
  }

  /** An option token is never taken as a value, so the scan reaches it
      from any earlier position. */
  lemma {:induction false} ReachesOption(argv: seq<string>, j: nat, i: nat, args: map<string, ArgValue>)
    requires j <= i < |argv| && StartsWith(argv[i], FlagPrefix)
    ensures exists m :: ArgsFrom(argv, j, args) == ArgsFrom(argv, i, m)
    decreases i - j
  {
    if j < i {
      if !StartsWith(argv[j], FlagPrefix) {
        ReachesOption(argv, j + 1, i, args);
      } else {
        var key := argv[j][2..];
        if j + 1 < |argv| && IsValue(argv[j + 1]) {
          assert j + 1 != i;
          ReachesOption(argv, j + 2, i, args[key := Text(argv[j + 1])]);
        } else {
          ReachesOption(argv, j + 1, i, args[key := Flag]);
        }
      }
    } else {
      assert ArgsFrom(argv, j, args) == ArgsFrom(argv, i, args);
    }
  }

  /** The last occurrence of `--key` decides the option: the next token
      when it is a value (not empty, not an option), `true` otherwise. */
  lemma LastOccurrenceWins(argv: seq<string>, key: string, i: nat)
    requires 2 <= i < |argv| && argv[i] == FlagPrefix + key
    requires forall j :: i < j < |argv| ==> argv[j] != FlagPrefix + key
    ensures key in Args(argv)
    ensures Args(argv)[key] == (if i + 1 < |argv| && IsValue(argv[i + 1]) then Text(argv[i + 1]) else Flag)
  {
    assert StartsWith(argv[i], FlagPrefix) && argv[i][2..] == key;
    ReachesOption(argv, 2, i, map[]);
    var m :| Args(argv) == ArgsFrom(argv, i, m);
    if i + 1 < |argv| && IsValue(argv[i + 1]) {
      Untouched(argv, i + 2, m[key := Text(argv[i + 1])], key);
    } else {
      Untouched(argv, i + 1, m[key := Flag], key);
    }
  }

  /** Only option tokens after the first two entries create options: any
      other token, and whatever sits in the first two entries, is ignored. */
  lemma {:induction false} KeysAreOptions(argv: seq<string>, i: nat, args: map<string, ArgValue>, key: string)
    requires key !in args
    requires key in ArgsFrom(argv, i, args)
    ensures exists j :: i <= j < |argv| && argv[j] == FlagPrefix + key
    decreases |argv| - i
  {
    if forall j :: i <= j < |argv| ==> argv[j] != FlagPrefix + key {
      Untouched(argv, i, args, key);
      assert false;
    }
  }

  // ---------------------------------------------------------------------
  // Settings

  /** `args.x || process.env.Y || default` */
  function Setting(arg: Option<ArgValue>, env: Option<string>, default: string): (v: ArgValue)
    ensures arg.Some? ==> v == arg.value
    ensures arg.None? && Present(env) ==> v == Text(env.value)
    ensures arg.None? && !Present(env) ==> v == Text(default)
  {
    if arg.Some? then arg.value else if Present(env) then Text(env.value) else Text(default)
  }

  /** The server URL: the option, OPENAPI_SERVER_URL, or localhost on PORT
      (3001 by default). */
  function ServerUrl(arg: Option<ArgValue>, env: Option<string>, port: Option<string>): ArgValue {
    Setting(arg, env, "http://localhost:" + (if Present(port) then port.value else DefaultPort))
  }

  /** `path.isAbsolute` on POSIX paths. */
  predicate IsAbsolute(p: string) {
    p != "" && p[0] == '/'
  }

  /** `path.join(root, p)` for a relative `p`; path normalisation is not modelled. */
  function JoinPath(root: string, p: string): string {
    root + "/" + p
  }

  /** A glob or output path: kept when absolute, else under the project root. */
  function Resolve(root: string, p: string): (r: string)
    ensures IsAbsolute(root) ==> IsAbsolute(r)
    ensures IsAbsolute(p) ==> r == p
    ensures !IsAbsolute(p) ==> |r| == |root| + 1 + |p| && r[..|root|] == root && r[|root|] == '/' && r[|root| + 1..] == p
  {
    if IsAbsolute(p) then p else JoinPath(root, p)
  }

  /** The output path; `--out` without a value reaches `path.isAbsolute`
      as `true`, which throws. */
  function OutPath(arg: Option<ArgValue>, root: string): (r: Result<string, Error>)
    ensures r.Failure? <==> arg == Some(Flag)
    ensures arg.None? ==> r == Success(JoinPath(root, DefaultOut))
    ensures arg.Some? && arg.value.Text? ==> r == Success(Resolve(root, arg.value.s))
    ensures r.Success? && IsAbsolute(root) ==> IsAbsolute(r.value)
  {
    match arg
    case None => Success(Resolve(root, DefaultOut))
    case Some(Flag) => Failure(Error("TypeError", "The \"path\" argument must be of type string. Received type boolean (true)", None))
    case Some(Text(s)) => Success(Resolve(root, s))
  }

  function ResolveAll(root: string, items: seq<string>): (r: seq<string>)
    ensures |r| == |items|
    ensures forall i :: 0 <= i < |items| ==> r[i] == Resolve(root, items[i])
  {
    seq(|items|, i requires 0 <= i < |items| => Resolve(root, items[i]))
  }

  /** The `apis` list: the option, else OPENAPI_APIS, split on commas,
      trimmed, with empty entries dropped, each resolved against the root;
      the two default globs when neither is given. `--apis` without a
      value is `true`, which has no `split`. */
  function Apis(arg: Option<ArgValue>, env: Option<string>, root: string): (r: Result<seq<string>, Error>)
    ensures r.Failure? <==> arg == Some(Flag)
    ensures arg.None? && !Present(env) ==> r == Success(ResolveAll(root, DefaultApis))
    ensures arg.None? && Present(env) ==> r == Success(ResolveAll(root, SplitTrimmed(env.value, ',')))
    ensures (arg.Some? && arg.value.Text?) ==> r == Success(ResolveAll(root, SplitTrimmed(arg.value.s, ',')))
    ensures r.Success? && IsAbsolute(root) ==> forall g :: g in r.value ==> IsAbsolute(g)
  {
    assert IsTrimmed(DefaultApis[0]) && IsTrimmed(DefaultApis[1]);
    TrimEachOfTrimmed(DefaultApis);
    NonEmptyOfNonEmpty(DefaultApis);
    var apisArg := if arg.Some? then arg else if Present(env) then Some(Text(env.value)) else None;
    match apisArg
    case None => Success(ResolveAll(root, NonEmpty(TrimEach(DefaultApis))))
    case Some(Flag) => Failure(Error("TypeError", "apisArg.split is not a function", None))
    case Some(Text(s)) => Success(ResolveAll(root, SplitTrimmed(s, ',')))
  }

  /** A comma list of trimmed, comma-free globs comes back as exactly
      those globs, each resolved against the root. */
  lemma ApisOfList(globs: seq<string>, root: string)
    requires |globs| >= 1
    requires forall i :: 0 <= i < |globs| ==> globs[i] != "" && IsTrimmed(globs[i]) && ',' !in globs[i]
    ensures Apis(Some(Text(Join(globs, ','))), None, root) == Success(ResolveAll(root, globs))
  {
    SplitTrimmedOfJoin(globs, ',');
  }

  /** The settings the script resolves before generating. */
  datatype Settings = Settings(title: ArgValue, version: ArgValue, serverUrl: ArgValue, description: ArgValue,
                               outPath: string, apis: seq<string>)

  /** The environment the script reads. */
  datatype ScriptEnv = ScriptEnv(title: Option<string>, version: Option<string>, serverUrl: Option<string>,
                                 port: Option<string>, description: Option<string>, apis: Option<string>)

  function Lookup(args: map<string, ArgValue>, key: string): Option<ArgValue> {
    if key in args then Some(args[key]) else None
  }

  /** Everything the script derives from its command line, environment,
      project root and package version, or the error it stops with. */
  function Resolved(argv: seq<string>, env: ScriptEnv, root: string, pkgVersion: string): (r: Result<Settings, Error>)
    ensures r.Success? <==> Lookup(Args(argv), "out") != Some(Flag) && Lookup(Args(argv), "apis") != Some(Flag)
    ensures r.Success? ==> r.value.title == Setting(Lookup(Args(argv), "title"), env.title, DefaultTitle)
                           && r.value.version == Setting(Lookup(Args(argv), "version"), env.version, pkgVersion)
                           && r.value.outPath == OutPath(Lookup(Args(argv), "out"), root).value
                           && r.value.apis == Apis(Lookup(Args(argv), "apis"), env.apis, root).value
    ensures r.Success? ==> r.value.description == Setting(Lookup(Args(argv), "desc"), env.description, DefaultDescription)
                           && r.value.serverUrl == Setting(Lookup(Args(argv), "server"), env.serverUrl,
                                                           "http://localhost:" + (if Present(env.port) then env.port.value else DefaultPort))
  {
    var args := Args(argv);
    var out := OutPath(Lookup(args, "out"), root);
    if out.Failure? then Failure(out.error)
    else
      var apis := Apis(Lookup(args, "apis"), env.apis, root);
      if apis.Failure? then Failure(apis.error)
      else
        Success(Settings(
          Setting(Lookup(args, "title"), env.title, DefaultTitle),
          Setting(Lookup(args, "version"), env.version, pkgVersion),
          ServerUrl(Lookup(args, "server"), env.serverUrl, env.port),
          Setting(Lookup(args, "desc"), env.description, DefaultDescription),
          out.value, apis.value))
  }

  /** With no arguments at all the script documents the default globs
      under the root and writes `openapi.json` there. */
  lemma DefaultsWithoutArguments(runtime: string, script: string, env: ScriptEnv, root: string, pkgVersion: string)
    requires !Present(env.apis)
    ensures var r := Resolved([runtime, script], env, root, pkgVersion);
            && r.Success?
            && r.value.outPath == root + "/" + DefaultOut
            && r.value.apis == [root + "/" + "src/**/*.js", root + "/" + "src/**/*.ts"]
  {
    var args := Args([runtime, script]);
    assert args == map[];
    assert Lookup(args, "out") == None && Lookup(args, "apis") == None;
    var apis := ResolveAll(root, DefaultApis);
    assert Apis(None, env.apis, root) == Success(apis);
    assert !IsAbsolute(DefaultApis[0]) && !IsAbsolute(DefaultApis[1]);
    assert apis == [JoinPath(root, DefaultApis[0]), JoinPath(root, DefaultApis[1])];
  }
}
