/**
 * `PocketBaseHostBuilder`: collects the executable path, the host options,
 * the cron generation request and the schema templates, from code, from
 * environment variables or from a configuration file, and builds the host.
 * Every `Use...` method returns the builder itself; the methods here return
 * only what differs from that, the exception thrown.
 */
module PocketBaseHostBuilder {
  import opened Wrappers
  import opened Values
  import opened Text
  import opened HostOptions
  import opened MigrationWriter
  import CronGenerator
  import BinaryResolver
  import PocketBaseHost
  import Paths

  /** `UseSchemaTemplate` on the set of templates: only defined schemas are added. */
  function WithTemplate(templates: set<Schema>, s: Schema): (r: set<Schema>)
    ensures IsDefined(s) ==> r == templates + {s}
    ensures !IsDefined(s) ==> r == templates
  {
    if IsDefined(s) then templates + {s} else templates
  }

  /** Adding a schema a second time changes nothing. */
  lemma WithTemplateIdempotent(templates: set<Schema>, s: Schema)
    ensures WithTemplate(WithTemplate(templates, s), s) == WithTemplate(templates, s)
  {
  }

  /** `UseSchemaTemplate` on each schema in turn. */
  function WithTemplates(templates: set<Schema>, schemas: seq<Schema>): set<Schema>
    decreases |schemas|
  {
    if |schemas| == 0 then templates
    else WithTemplate(WithTemplates(templates, schemas[..|schemas| - 1]), schemas[|schemas| - 1])
  }

  /** Adding schemas one by one adds exactly the defined ones among them. */
  lemma {:induction false} WithTemplatesAddsDefined(templates: set<Schema>, schemas: seq<Schema>)
    ensures WithTemplates(templates, schemas) == templates + (set s | s in schemas && IsDefined(s))
    decreases |schemas|
  {
    if |schemas| > 0 {
      var init := schemas[..|schemas| - 1];
      WithTemplatesAddsDefined(templates, init);
      assert forall s :: s in schemas <==> s in init || s == schemas[|schemas| - 1];
    }
  }

  /** The option names `ApplyEnvironmentVariable` knows, upper-cased. */
  const KnownVariables: set<string> := {"HOST", "PORT", "DIR", "DEV"}

  /**
   * `ApplyEnvironmentVariable`: an empty value is ignored; the name is
   * matched without regard to case; HOST and DIR take the value, PORT and
   * DEV take it only when it parses; any other name is ignored. Only Host,
   * Port, Dir and Dev can change.
   */
  function WithVariable(o: HostOptions, name: string, value: string): (r: HostOptions)
    ensures value == "" || ToUpperAscii(name) !in KnownVariables ==> r == o
    ensures r.migrationsDir == o.migrationsDir && r.executable == o.executable
    ensures value != "" && ToUpperAscii(name) == "HOST" ==> r == o.(host := Some(value))
    ensures value != "" && ToUpperAscii(name) == "DIR" ==> r == o.(dir := Some(value))
    ensures ToUpperAscii(name) == "PORT" && TryParseInt32(value).None? ==> r == o
    ensures ToUpperAscii(name) == "DEV" && TryParseBool(value).None? ==> r == o
  {
    if value == "" then o
    else
      var upper := ToUpperAscii(name);
      if upper == "HOST" then o.(host := Some(value))
      else if upper == "PORT" then (if TryParseInt32(value).Some? then o.(port := TryParseInt32(value).value) else o)
      else if upper == "DIR" then o.(dir := Some(value))
      else if upper == "DEV" then (if TryParseBool(value).Some? then o.(dev := TryParseBool(value).value) else o)
      else o
  }

  /** One environment variable, by its name and its value (null when it has none). */
  type Variable = (string, Option<string>)

  /** Whether `UseEnvironmentVariables` applies the variable: its name starts with the prefix, ignoring case, and it has a value. */
  predicate Applies(prefix: string, v: Variable) {
    StartsWithIgnoreCase(v.0, prefix) && v.1.Some?
  }

  /** `UseEnvironmentVariables` on the options: each applicable variable in turn, by its name with the prefix cut off. */
  function FromEnvironment(o: HostOptions, prefix: string, env: seq<Variable>): HostOptions
    decreases |env|
  {
    if |env| == 0 then o
    else
      var before := FromEnvironment(o, prefix, env[..|env| - 1]);
      var v := env[|env| - 1];
      if Applies(prefix, v) then WithVariable(before, v.0[|prefix|..], v.1.value) else before
  }

  /** The applicable variables of `env`, in order. */
  function Applicable(prefix: string, env: seq<Variable>): (r: seq<Variable>)
    ensures forall i :: 0 <= i < |r| ==> Applies(prefix, r[i])
    decreases |env|
  {
    if |env| == 0 then []
    else Applicable(prefix, env[..|env| - 1]) + (if Applies(prefix, env[|env| - 1]) then [env[|env| - 1]] else [])
  }

  /** Variables without the prefix, and variables without a value, play no part. */
  lemma {:induction false} OnlyApplicableVariablesCount(o: HostOptions, prefix: string, env: seq<Variable>)
    ensures FromEnvironment(o, prefix, env) == FromEnvironment(o, prefix, Applicable(prefix, env))
    decreases |env|
  {
    if |env| > 0 {
      var init := env[..|env| - 1];
      var v := env[|env| - 1];
      OnlyApplicableVariablesCount(o, prefix, init);
      var a := Applicable(prefix, env);
      if Applies(prefix, v) {
        assert a == Applicable(prefix, init) + [v];
        assert a[..|a| - 1] == Applicable(prefix, init) && a[|a| - 1] == v;
      } else {
        assert a == Applicable(prefix, init);
      }
    }
  }

  /** Environment variables never set the migrations directory or the executable. */
  lemma {:induction false} EnvironmentKeepsOtherOptions(o: HostOptions, prefix: string, env: seq<Variable>)
    ensures FromEnvironment(o, prefix, env).migrationsDir == o.migrationsDir
    ensures FromEnvironment(o, prefix, env).executable == o.executable
    decreases |env|
  {
    if |env| > 0 {
      EnvironmentKeepsOtherOptions(o, prefix, env[..|env| - 1]);
    }
  }

  const DefaultPrefix := "POCKETBASE_"

  /** A HOST variable under the prefix, applied last, sets the host. */
  lemma HostVariable(o: HostOptions, prefix: string, before: seq<Variable>, host: string)
    requires host != ""
    ensures FromEnvironment(o, prefix, before + [(prefix + "HOST", Some(host))])
         == FromEnvironment(o, prefix, before).(host := Some(host))
  {
    AppliedStep(o, prefix, before, "HOST", host);
    UpperUnchanged("HOST");
  }

  /** A PORT variable that holds a 32-bit integer sets the port. */
  lemma PortVariable(o: HostOptions, prefix: string, before: seq<Variable>, port: int)
    requires Int32Min <= port <= Int32Max
    ensures FromEnvironment(o, prefix, before + [(prefix + "PORT", Some(IntToString(port)))])
         == FromEnvironment(o, prefix, before).(port := port)
  {
    AppliedStep(o, prefix, before, "PORT", IntToString(port));
    UpperUnchanged("PORT");
    TryParseInt32OfIntToString(port);
    assert IntToString(port) != "";
  }

  /** A DIR variable sets the data directory. */
  lemma DirVariable(o: HostOptions, prefix: string, before: seq<Variable>, dir: string)
    requires dir != ""
    ensures FromEnvironment(o, prefix, before + [(prefix + "DIR", Some(dir))])
         == FromEnvironment(o, prefix, before).(dir := Some(dir))
  {
    AppliedStep(o, prefix, before, "DIR", dir);
    UpperUnchanged("DIR");
  }

  /** A DEV variable that parses as a boolean sets the development flag. */
  lemma DevVariable(o: HostOptions, prefix: string, before: seq<Variable>, dev: string)
    requires TryParseBool(dev).Some?
    ensures FromEnvironment(o, prefix, before + [(prefix + "DEV", Some(dev))])
         == FromEnvironment(o, prefix, before).(dev := TryParseBool(dev).value)
  {
    AppliedStep(o, prefix, before, "DEV", dev);
    UpperUnchanged("DEV");
    assert dev != "";
  }

  /** A variable named with the prefix, appended last, is applied on top of the others under the rest of its name. */
  lemma AppliedStep(o: HostOptions, prefix: string, before: seq<Variable>, name: string, value: string)
    ensures FromEnvironment(o, prefix, before + [(prefix + name, Some(value))])
         == WithVariable(FromEnvironment(o, prefix, before), name, value)
  {
    var env := before + [(prefix + name, Some(value))];
    assert env[..|env| - 1] == before;
    var key := prefix + name;
    assert key[..|prefix|] == prefix && key[|prefix|..] == name;
  }

  /** Upper-casing a string without lower-case letters changes nothing. */
  lemma UpperUnchanged(s: string)
    requires forall i :: 0 <= i < |s| ==> !('a' <= s[i] <= 'z')
    ensures ToUpperAscii(s) == s
  {
  }

  /**
   * `ApplyConfiguration` on the options and the executable path: a null
   * configuration changes nothing; otherwise Port and Dev are always taken
   * from it, while Host, Dir and the executable keep their old values where
   * the configuration's are null.
   */
  function Configured(o: HostOptions, executablePath: Option<string>, config: Option<HostOptions>): (r: (HostOptions, Option<string>))
    ensures config.None? ==> r == (o, executablePath)
    ensures config.Some? ==>
      r.0.port == config.value.port && r.0.dev == config.value.dev
      && r.0.host == (if config.value.host.Some? then config.value.host else o.host)
      && r.0.dir == (if config.value.dir.Some? then config.value.dir else o.dir)
      && r.0.migrationsDir == o.migrationsDir && r.0.executable == o.executable
      && r.1 == (if config.value.executable.Some? then config.value.executable else executablePath)
  {
    if config.None? then (o, executablePath)
    else
      var c := config.value;
      (o.(host := if c.host.Some? then c.host else o.host, port := c.port,
          dir := if c.dir.Some? then c.dir else o.dir, dev := c.dev),
       if c.executable.Some? then c.executable else executablePath)
  }

  /** Applying the same configuration a second time changes nothing more. */
  lemma ConfiguredIdempotent(o: HostOptions, executablePath: Option<string>, config: Option<HostOptions>)
    ensures var once := Configured(o, executablePath, config);
      Configured(once.0, once.1, config) == once
  {
  }

  /** The child elements of an XML document's root, by name (the first of each name). */
  type XmlRoot = map<string, string>

  function Element(root: XmlRoot, name: string): Option<string> {
    if name in root then Some(root[name]) else None
  }

  /**
   * The options `UseXmlConfiguration` reads: new options, with Host and Dir
   * from their elements when present and Port and Dev from theirs when they
   * parse; a document without a root gives new options unchanged.
   */
  function XmlOptions(defaults: HostOptions, root: Option<XmlRoot>): (r: HostOptions)
    ensures root.None? ==> r == defaults
    ensures r.migrationsDir == defaults.migrationsDir && r.executable == defaults.executable
    ensures root.Some? && "Port" in root.value && TryParseInt32(root.value["Port"]).Some? ==> r.port == TryParseInt32(root.value["Port"]).value
    ensures root.Some? && ("Port" !in root.value || TryParseInt32(root.value["Port"]).None?) ==> r.port == defaults.port
    ensures root.Some? ==> r.host == (if "Host" in root.value then Some(root.value["Host"]) else defaults.host)
  {
    if root.None? then defaults
    else
      var e := root.value;
      var port := if Element(e, "Port").Some? then TryParseInt32(Element(e, "Port").value) else None;
      var dev := if Element(e, "Dev").Some? then TryParseBool(Element(e, "Dev").value) else None;
      defaults.(host := if Element(e, "Host").Some? then Element(e, "Host") else defaults.host,
                port := if port.Some? then port.value else defaults.port,
                dir := if Element(e, "Dir").Some? then Element(e, "Dir") else defaults.dir,
                dev := if dev.Some? then dev.value else defaults.dev)
  }

  /** The configuration file formats `UseConfigurationFile` dispatches on. */
  datatype Format = JsonFormat | XmlFormat

  /** The format for a file's extension, compared in lower case; any other extension is not supported. */
  function FormatOf(filePath: string): (r: Result<Format, Exn>)
    ensures r.Failure? ==> r.error == NotSupported(UnsupportedFormatMessage + ToLowerAscii(Paths.Extension(filePath)))
  {
    var extension := ToLowerAscii(Paths.Extension(filePath));
    if extension == ".json" then Success(JsonFormat)
    else if extension == ".xml" then Success(XmlFormat)
    else Failure(NotSupported(UnsupportedFormatMessage + extension))
  }

  /**
   * The extension is matched without regard to case: a file `stem.ext` is
   * read as JSON when `ext` lower-cases to "json", as XML when it lower-cases
   * to "xml", and is refused otherwise.
   */
  lemma FormatIgnoresCase(stem: string, ext: string)
    requires ext != "" && '.' !in ext && '/' !in ext
    ensures FormatOf(stem + "." + ext) == Success(JsonFormat) <==> ToLowerAscii(ext) == "json"
    ensures FormatOf(stem + "." + ext) == Success(XmlFormat) <==> ToLowerAscii(ext) == "xml"
    ensures FormatOf(stem + "." + ext).Failure? ==>
      FormatOf(stem + "." + ext).error == NotSupported(UnsupportedFormatMessage + ("." + ToLowerAscii(ext)))
  {
    var path := stem + "." + ext;
    ExtensionOf(path, stem, ext);
    var low := ToLowerAscii(ext);
    LowerDot(ext);
    assert ToLowerAscii(Paths.Extension(path)) == "." + low;
    DotPrefix(low, "json");
    DotPrefix(low, "xml");
    assert "." + "json" == ".json" && "." + "xml" == ".xml";
  }

  lemma LowerDot(ext: string)
    ensures ToLowerAscii("." + ext) == "." + ToLowerAscii(ext)
  {
    var lower := ToLowerAscii("." + ext);
    forall i | 0 <= i < |lower| ensures lower[i] == ("." + ToLowerAscii(ext))[i] {
    }
  }

  lemma DotPrefix(a: string, b: string)
    ensures "." + a == "." + b <==> a == b
  {
    if "." + a == "." + b {
      assert a == ("." + a)[1..];
    }
  }

  /** The extension of `stem.ext`, for an `ext` without '.' or '/'. */
  lemma ExtensionOf(path: string, stem: string, ext: string)
    requires path == stem + "." + ext && ext != "" && '.' !in ext && '/' !in ext
    ensures Paths.Extension(path) == "." + ext
  {
    var base := FileNameOf(path, stem, ext);
    var name := Paths.FileName(path);
    Paths.LastIndexOfAppend(base, ext, '.');
    assert Paths.LastIndexOf(base, '.') == |base| - 1;
    assert name[|base| - 1..] == "." + ext;
  }

  /** The file name of `stem.ext` is the file name of the stem, a '.' and `ext`. */
  lemma FileNameOf(path: string, stem: string, ext: string) returns (base: string)
    requires path == stem + "." + ext && '/' !in ext
    ensures base != "" && base[|base| - 1] == '.'
    ensures Paths.FileName(path) == base + ext
  {
    var dotted := stem + ".";
    assert path == dotted + ext;
    Paths.LastIndexOfAppend(dotted, ext, '/');
    assert dotted[..|dotted| - 1] == stem;
    var k := Paths.LastIndexOf(stem, '/');
    base := stem[k + 1..] + ".";
  }

  const ConfigurationNotFoundMessage := "Configuration file not found: "
  const UnsupportedFormatMessage := "Unsupported configuration file format: "
  const CronMisconfiguredMessage := "Cron generator configured without manifest or options."
  const NoExecutableMessage := "No PocketBase executable found"

  /** Everything a builder holds. */
  datatype BuilderState = BuilderState(
    executablePath: Option<string>,
    options: HostOptions,
    logger: Option<nat>,
    cronGenerator: Option<nat>,
    cronManifest: Option<CronGenerator.CronManifest>,
    cronOptions: Option<CronGenerator.GenerationOptions>,
    schemaTemplates: set<Schema>,
    cronRuns: seq<(CronGenerator.CronManifest, CronGenerator.GenerationOptions)>)

  /** Where `BuildAsync` finds the executable: the configured path, else what the resolver finds on the machine. */
  function Resolution(executablePath: Option<string>, m: BinaryResolver.Machine, fetched: string -> bool): (r: Result<Option<string>, Exn>)
    ensures executablePath.Some? ==> r == Success(executablePath)
    ensures executablePath.None? ==> r == BinaryResolver.Resolve(m, fetched)
    ensures r.Success? && r.value.Some? && executablePath.None? ==> r.value == Some(BinaryResolver.LocalExecutablePath(m).value)
  {
    if executablePath.Some? then Success(executablePath) else BinaryResolver.Resolve(m, fetched)
  }

  /** Whether a cron generator is set without its manifest or its options. */
  predicate CronMisconfigured(b: BuilderState) {
    b.cronGenerator.Some? && (b.cronManifest.None? || b.cronOptions.None?)
  }

  /** The `GenerateAsync` call a well-configured builder makes, if any. */
  function CronRun(b: BuilderState): seq<(CronGenerator.CronManifest, CronGenerator.GenerationOptions)>
    requires !CronMisconfigured(b)
  {
    if b.cronGenerator.Some? then [(b.cronManifest.value, b.cronOptions.value)] else []
  }

  /**
   * The exception the `GenerateAsync` call of a well-configured builder
   * throws, if any: the generator's outcome for the builder's manifest and
   * options, with `projectExists`, `exitCode` and `stderr` telling what the
   * file system and the `go` runs do.
   */
  function GenerationError(b: BuilderState, projectExists: bool, exitCode: CronGenerator.GoCommand -> Option<int>,
                           stderr: CronGenerator.GoCommand -> string): (r: Option<Exn>)
    requires !CronMisconfigured(b)
    ensures b.cronGenerator.None? ==> r.None?
    ensures b.cronGenerator.Some? ==>
      r == CronGenerator.Generate(b.cronManifest, b.cronOptions, projectExists, exitCode, stderr).1
  {
    if b.cronGenerator.Some? then CronGenerator.Generate(b.cronManifest, b.cronOptions, projectExists, exitCode, stderr).1 else None
  }

  /**
   * The executable a host is launched with, from the resolution: a
   * resolver failure is passed on, a blank path means no executable was
   * found, and a path that does not exist is refused by the host.
   */
  function Launch(res: Result<Option<string>, Exn>, executableExists: string -> bool): (r: Result<string, Exn>)
    ensures r.Success? <==> res.Success? && !IsNullOrWhiteSpace(res.value) && executableExists(res.value.value)
    ensures r.Success? ==> r.value == res.value.value
    ensures res.Success? && IsNullOrWhiteSpace(res.value) ==> r == Failure(InvalidOperation(NoExecutableMessage))
  {
    if res.Failure? then Failure(res.error)
    else if IsNullOrWhiteSpace(res.value) then Failure(InvalidOperation(NoExecutableMessage))
    else if !executableExists(res.value.value) then Failure(FileNotFound(PocketBaseHost.ExecutableNotFound))
    else Success(res.value.value)
  }

  class Builder {
    /** What `new PocketBaseHostOptions()` holds. */
    const defaults: HostOptions
    var executablePath: Option<string>
    var options: HostOptions
    /** The logger and the cron generator, by identity. */
    var logger: Option<nat>
    var cronGenerator: Option<nat>
    var cronManifest: Option<CronGenerator.CronManifest>
    var cronOptions: Option<CronGenerator.GenerationOptions>
    var schemaTemplates: set<Schema>
    /** The `GenerateAsync` calls `BuildAsync` made, by their arguments. */
    var cronRuns: seq<(CronGenerator.CronManifest, CronGenerator.GenerationOptions)>

    function State(): BuilderState
      reads this
    {
      BuilderState(executablePath, options, logger, cronGenerator, cronManifest, cronOptions, schemaTemplates, cronRuns)
    }

    /** `CreateDefault`: nothing configured, new options. */
    constructor(defaults: HostOptions)
      ensures this.defaults == defaults
      ensures State() == BuilderState(None, defaults, None, None, None, None, {}, [])
    {
      this.defaults := defaults;
      executablePath := None;
      options := defaults;
      logger := None;
      cronGenerator := None;
      cronManifest := None;
      cronOptions := None;
      schemaTemplates := {};
      cronRuns := [];
    }

    /** `UseExecutable`: a null path throws and leaves the builder as it was. */
    method UseExecutable(path: Option<string>) returns (thrown: Option<Exn>)
      modifies this
      ensures path.None? <==> thrown == Some(ArgumentNull("executablePath"))
      ensures path.None? ==> State() == old(State())
      ensures path.Some? ==> thrown.None? && State() == old(State()).(executablePath := path)
    {
      if path.None? {
        return Some(ArgumentNull("executablePath"));
      }
      executablePath := path;
      thrown := None;
    }

    method UseCrons(generator: Option<nat>, manifest: Option<CronGenerator.CronManifest>, cronOptions: Option<CronGenerator.GenerationOptions>)
      modifies this
      ensures State() == old(State()).(cronGenerator := generator, cronManifest := manifest, cronOptions := cronOptions)
    {
      cronGenerator := generator;
      cronManifest := manifest;
      this.cronOptions := cronOptions;
    }

    /** `UseSchemaTemplate`: adds the schema when it is a defined member. */
    method UseSchemaTemplate(schema: Schema)
      modifies this
      ensures State() == old(State()).(schemaTemplates := WithTemplate(old(schemaTemplates), schema))
    {
      if IsDefined(schema) {
        schemaTemplates := schemaTemplates + {schema};
      }
    }

    /** `UseSchemaTemplates`: a null collection throws; otherwise `UseSchemaTemplate` on each element in turn. */
    method UseSchemaTemplates(schemas: Option<seq<Schema>>) returns (thrown: Option<Exn>)
      modifies this
      ensures schemas.None? ==> thrown == Some(ArgumentNull("schemas")) && State() == old(State())
      ensures schemas.Some? ==>
        thrown.None? && State() == old(State()).(schemaTemplates := WithTemplates(old(schemaTemplates), schemas.value))
    {
      if schemas.None? {
        return Some(ArgumentNull("schemas"));
      }
      var xs := schemas.value;
      for i := 0 to |xs|
        invariant State() == old(State()).(schemaTemplates := WithTemplates(old(schemaTemplates), xs[..i]))
      {
        assert xs[..i + 1][..i] == xs[..i];
        UseSchemaTemplate(xs[i]);
      }
      assert xs[..|xs|] == xs;
      thrown := None;
    }

    /** `UseOptions`: the callback, when there is one, edits the options. */
    method UseOptions(configure: Option<HostOptions -> HostOptions>)
      modifies this
      ensures State() == old(State()).(options := if configure.Some? then configure.value(old(options)) else old(options))
    {
      if configure.Some? {
        options := configure.value(options);
      }
    }

    method UseLogger(logger: Option<nat>)
      modifies this
      ensures State() == old(State()).(logger := logger)
    {
      this.logger := logger;
    }

    method ApplyEnvironmentVariable(optionName: string, value: string)
      modifies this
      ensures State() == old(State()).(options := WithVariable(old(options), optionName, value))
    {
      if value == "" {
        return;
      }
      var upper := ToUpperAscii(optionName);
      if upper == "HOST" {
        options := options.(host := Some(value));
      } else if upper == "PORT" {
        var port := TryParseInt32(value);
        if port.Some? {
          options := options.(port := port.value);
        }
      } else if upper == "DIR" {
        options := options.(dir := Some(value));
      } else if upper == "DEV" {
        var dev := TryParseBool(value);
        if dev.Some? {
          options := options.(dev := dev.value);
        }
      }
    }

    /**
     * `UseEnvironmentVariables`: every variable, in the order the process
     * environment lists them, whose name starts with the prefix (ignoring
     * case) and that has a value is applied under the rest of its name.
     */
    method UseEnvironmentVariables(prefix: string, env: seq<Variable>)
      modifies this
      ensures State() == old(State()).(options := FromEnvironment(old(options), prefix, env))
    {
      for i := 0 to |env|
        invariant State() == old(State()).(options := FromEnvironment(old(options), prefix, env[..i]))
      {
        assert env[..i + 1][..i] == env[..i];
        var (key, value) := env[i];
        if StartsWithIgnoreCase(key, prefix) {
          var optionName := key[|prefix|..];
          if value.Some? {
            ApplyEnvironmentVariable(optionName, value.value);
          }
        }
      }
      assert env[..|env|] == env;
    }

    method ApplyConfiguration(config: Option<HostOptions>)
      modifies this
      ensures var c := Configured(old(options), old(executablePath), config);
        State() == old(State()).(options := c.0, executablePath := c.1)
    {
      if config.None? {
        return;
      }
      var c := config.value;
      options := options.(host := if c.host.Some? then c.host else options.host);
      options := options.(port := c.port);
      options := options.(dir := if c.dir.Some? then c.dir else options.dir);
      options := options.(dev := c.dev);
      executablePath := if c.executable.Some? then c.executable else executablePath;
    }

    /** `UseJsonConfiguration`: the file's text, deserialized (null for a JSON null), is applied. */
    method UseJsonConfiguration(filePath: string, read: string -> string, deserialize: string -> Option<HostOptions>)
      modifies this
      ensures var c := Configured(old(options), old(executablePath), deserialize(read(filePath)));
        State() == old(State()).(options := c.0, executablePath := c.1)
    {
      var json := read(filePath);
      var config := deserialize(json);
      ApplyConfiguration(config);
    }

    /**
     * `UseXmlConfiguration`: the Executable element, when present, sets the
     * executable path; then the options read from the document are applied.
     */
    method UseXmlConfiguration(filePath: string, read: string -> string, parse: string -> Option<XmlRoot>)
      modifies this
      ensures var root := parse(read(filePath));
        var exe := if root.Some? && "Executable" in root.value then Some(root.value["Executable"]) else old(executablePath);
        var c := Configured(old(options), exe, Some(XmlOptions(defaults, root)));
        State() == old(State()).(options := c.0, executablePath := c.1)
    {
      var xml := read(filePath);
      var root := parse(xml);
      if root.Some? {
        var e := root.value;
        executablePath := if Element(e, "Executable").Some? then Element(e, "Executable") else executablePath;
      }
      ApplyConfiguration(Some(XmlOptions(defaults, root)));
    }

    /**
     * `UseConfigurationFile`: a missing file throws; otherwise the file is
     * read as JSON or XML by its extension, and any other extension throws.
     */
    method UseConfigurationFile(filePath: string, fileExists: string -> bool, read: string -> string,
                                deserialize: string -> Option<HostOptions>, parse: string -> Option<XmlRoot>)
      returns (thrown: Option<Exn>)
      modifies this
      ensures !fileExists(filePath) ==> thrown == Some(FileNotFound(ConfigurationNotFoundMessage + filePath))
      ensures fileExists(filePath) && FormatOf(filePath).Failure? ==> thrown == Some(FormatOf(filePath).error)
      ensures thrown.Some? ==> State() == old(State())
      ensures thrown.None? <==> fileExists(filePath) && FormatOf(filePath).Success?
      ensures thrown.None? && FormatOf(filePath) == Success(JsonFormat) ==>
        var c := Configured(old(options), old(executablePath), deserialize(read(filePath)));
        State() == old(State()).(options := c.0, executablePath := c.1)
      ensures thrown.None? && FormatOf(filePath) == Success(XmlFormat) ==>
        var root := parse(read(filePath));
        var exe := if root.Some? && "Executable" in root.value then Some(root.value["Executable"]) else old(executablePath);
        var c := Configured(old(options), exe, Some(XmlOptions(defaults, root)));
        State() == old(State()).(options := c.0, executablePath := c.1)
    {
      if !fileExists(filePath) {
        return Some(FileNotFound(ConfigurationNotFoundMessage + filePath));
      }
      var format := FormatOf(filePath);
      if format.Failure? {
        return Some(format.error);
      }
      if format.value == JsonFormat {
        UseJsonConfiguration(filePath, read, deserialize);
      } else {
        UseXmlConfiguration(filePath, read, parse);
      }
      thrown := None;
    }

    /** The `_executablePath ??= await ResolveAsync()` step of `BuildAsync`: a path found is kept. */
    method ResolveExecutable(machine: BinaryResolver.Machine, fetched: string -> bool)
      returns (res: Result<Option<string>, Exn>)
      modifies this
      ensures res == Resolution(old(executablePath), machine, fetched)
      ensures State() == old(State()).(executablePath := if res.Success? then res.value else old(executablePath))
      ensures res.Success? ==> executablePath == res.value
    {
      if executablePath.Some? {
        return Success(executablePath);
      }
      res := BinaryResolver.Resolve(machine, fetched);
      if res.Success? {
        executablePath := res.value;
      }
    }

    /**
     * `BuildAsync`. A cron generator without manifest or options throws
     * before anything happens. Otherwise the crons are generated, and an
     * exception of the generator ends the build there; then the schema templates are
     * written (`order` is the order the template set enumerates
     * in), and the executable path, when none is set, is resolved and kept;
     * then the host is launched as `Launch` says, `executableExists` telling
     * which files exist after any download.
     */
    method BuildAsync(fs: FileSystem, order: seq<Schema>, machine: BinaryResolver.Machine,
                      fetched: string -> bool, executableExists: string -> bool,
                      projectExists: bool, exitCode: CronGenerator.GoCommand -> Option<int>, stderr: CronGenerator.GoCommand -> string)
      returns (r: Result<PocketBaseHost.Host, Exn>)
      requires forall s :: s in order <==> s in schemaTemplates
      modifies this, fs
      ensures CronMisconfigured(old(State())) ==>
        r == Failure(InvalidOperation(CronMisconfiguredMessage)) && State() == old(State())
        && fs.files == old(fs.files) && fs.directories == old(fs.directories)
      ensures !CronMisconfigured(old(State())) && GenerationError(old(State()), projectExists, exitCode, stderr).Some? ==>
        r == Failure(GenerationError(old(State()), projectExists, exitCode, stderr).value)
        && State() == old(State()).(cronRuns := old(cronRuns) + CronRun(old(State())))
        && fs.files == old(fs.files) && fs.directories == old(fs.directories)
      ensures !CronMisconfigured(old(State())) && GenerationError(old(State()), projectExists, exitCode, stderr).None? ==>
        var res := Resolution(old(executablePath), machine, fetched);
        State() == old(State()).(executablePath := if res.Success? then res.value else old(executablePath),
                                 cronRuns := old(cronRuns) + CronRun(old(State())))
        && fs.files == (if |old(schemaTemplates)| > 0 then Written(old(fs.files), MigrationsDirectory(old(options)), order) else old(fs.files))
        && fs.directories == old(fs.directories) + (if |old(schemaTemplates)| > 0 then {MigrationsDirectory(old(options))} else {})
        && (r.Success? <==> Launch(res, executableExists).Success?)
        && (r.Failure? ==> r.error == Launch(res, executableExists).error)
        && (r.Success? ==> fresh(r.value) && r.value.executablePath == Launch(res, executableExists).value && r.value.options == options)
    {
      if cronGenerator.Some? {
        if cronManifest.None? || cronOptions.None? {
          return Failure(InvalidOperation(CronMisconfiguredMessage));
        }
        cronRuns := cronRuns + [(cronManifest.value, cronOptions.value)];
        var generated := CronGenerator.Generate(cronManifest, cronOptions, projectExists, exitCode, stderr);
        if generated.1.Some? {
          return Failure(generated.1.value);
        }
      }
      if |schemaTemplates| > 0 {
        WriteAsync(schemaTemplates, order, options, fs);
      }
      var resolved := ResolveExecutable(machine, fetched);
      if resolved.Failure? {
        return Failure(resolved.error);
      }
      if IsNullOrWhiteSpace(executablePath) {
        return Failure(InvalidOperation(NoExecutableMessage));
      }
      r := PocketBaseHost.New(executablePath, Some(options), defaults, executableExists);
    }
  }
}
