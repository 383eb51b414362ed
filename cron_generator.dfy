/**
 * The C# generator that writes the Go cron server: the order of its
 * generation steps, the data it prepares for the handler template (one
 * entry per manifest cron with a default body, a sorted set of imports),
 * the template's `indent` filter, and which exit codes of the `go` tool it
 * accepts. File writes, template rendering and processes are left out; the
 * registry and runtime text it emits are the ones modelled in
 * `CronServerRuntime`.
 */
module CronGenerator {
  import opened Wrappers
  import opened Values
  import opened Text
  import opened Ordering
  import Paths

  datatype CronDefinition = CronDefinition(id: string, handlerBody: Option<string>, importPackages: Option<seq<Option<string>>>)

  datatype CronManifest = CronManifest(crons: seq<CronDefinition>)

  datatype GenerationOptions = GenerationOptions(
    projectDirectory: string,
    outputDirectory: string,
    buildBinary: bool,
    goExecutable: string,
    cleanBeforeGenerate: bool)

  /** The options a caller gets by setting only the project directory. */
  function DefaultGenerationOptions(projectDirectory: string): (o: GenerationOptions)
    ensures o.projectDirectory == projectDirectory
    ensures o.outputDirectory == "internal/crons" && o.goExecutable == "go"
    ensures o.buildBinary && o.cleanBeforeGenerate
  {
    GenerationOptions(projectDirectory, "internal/crons", true, "go", true)
  }

  /** The three runs of the `go` tool, in the order they happen. */
  datatype GoCommand = ModInit | ModTidy | Build

  /** An observable step of `GenerateAsync`. */
  datatype GenerationStep =
    | DeleteProjectDirectory(path: string)
    | WriteProjectFiles(projectDirectory: string)
    | WriteHandlers(outputDirectory: string)
    | RunGo(command: GoCommand)

  /** Whether the generator accepts the exit code of a `go` run: `mod init` may also exit with 1 (module exists). */
  predicate ExitAccepted(command: GoCommand, exitCode: int) {
    match command
    case ModInit => exitCode == 0 || exitCode == 1
    case _ => exitCode == 0
  }

  function CommandName(command: GoCommand): string {
    match command
    case ModInit => "go mod init"
    case ModTidy => "go mod tidy"
    case Build => "go build"
  }

  function FailureMessage(command: GoCommand, stderr: string): string {
    match command
    case ModInit => "go mod init failed:\n" + stderr
    case ModTidy => "go mod tidy failed:\n" + stderr
    case Build => "Go build failed:\n" + stderr
  }

  /** The exception a run of `command` ends the build with, if any: it did not start, or its exit code is not accepted. */
  function StepError(command: GoCommand, exitCode: GoCommand -> Option<int>, stderr: GoCommand -> string): (r: Option<Exn>)
    ensures r.None? <==> exitCode(command).Some? && ExitAccepted(command, exitCode(command).value)
    ensures exitCode(command).None? ==> r == Some(InvalidOperation("Failed to start " + CommandName(command)))
    ensures exitCode(command).Some? && !ExitAccepted(command, exitCode(command).value) ==>
      r == Some(InvalidOperation(FailureMessage(command, stderr(command))))
  {
    if exitCode(command).None? then Some(InvalidOperation("Failed to start " + CommandName(command)))
    else if !ExitAccepted(command, exitCode(command).value) then Some(InvalidOperation(FailureMessage(command, stderr(command))))
    else None
  }

  /** The three runs in their order. */
  function AllCommands(): seq<GoCommand> {
    [ModInit, ModTidy, Build]
  }

  /**
   * `BuildGoBinaryAsync`: runs `mod init`, `mod tidy` and `build` in turn
   * and stops at the first that fails. Returns the commands run and the
   * exception, if any.
   */
  function BuildGoBinary(exitCode: GoCommand -> Option<int>, stderr: GoCommand -> string): (r: (seq<GoCommand>, Option<Exn>))
    ensures r.1.None? <==> forall c: GoCommand :: StepError(c, exitCode, stderr).None?
    ensures 1 <= |r.0| <= 3 && r.0 == AllCommands()[..|r.0|]
    ensures r.1.None? ==> |r.0| == 3
    ensures r.1.Some? ==> r.1 == StepError(r.0[|r.0| - 1], exitCode, stderr)
    ensures forall i :: 0 <= i < |r.0| - 1 ==> StepError(r.0[i], exitCode, stderr).None?
  {
    var init := StepError(ModInit, exitCode, stderr);
    var tidy := StepError(ModTidy, exitCode, stderr);
    var build := StepError(Build, exitCode, stderr);
    if init.Some? then ([ModInit], init)
    else if tidy.Some? then ([ModInit, ModTidy], tidy)
    else if build.Some? then ([ModInit, ModTidy, Build], build)
    else
      ([ModInit, ModTidy, Build], None)
  }

  /** The steps that run the `go` tool. */
  function RunSteps(commands: seq<GoCommand>): (r: seq<GenerationStep>)
    ensures |r| == |commands| && forall i :: 0 <= i < |commands| ==> r[i] == RunGo(commands[i])
  {
    seq(|commands|, i requires 0 <= i < |commands| => RunGo(commands[i]))
  }

  /** The steps before the build: cleaning when asked and the directory exists, then the project files and the handlers. */
  function GenerationHead(o: GenerationOptions, projectExists: bool): seq<GenerationStep> {
    (if o.cleanBeforeGenerate && projectExists then [DeleteProjectDirectory(o.projectDirectory)] else [])
    + [WriteProjectFiles(o.projectDirectory), WriteHandlers(Paths.Combine(o.projectDirectory, o.outputDirectory))]
  }

  /**
   * `GenerateAsync`: a null manifest or null options throw before anything
   * else; otherwise the project directory is deleted when cleaning is on and
   * it exists, the project files and handlers are written, and the build runs
   * only when requested.
   */
  function Generate(manifest: Option<CronManifest>, options: Option<GenerationOptions>, projectExists: bool,
                    exitCode: GoCommand -> Option<int>, stderr: GoCommand -> string): (r: (seq<GenerationStep>, Option<Exn>))
    ensures manifest.None? ==> r == ([], Some(ArgumentNull("cronManifest")))
    ensures manifest.Some? && options.None? ==> r == ([], Some(ArgumentNull("options")))
    ensures manifest.Some? && options.Some? ==>
      var o := options.value;
      && (!o.buildBinary ==> r == (GenerationHead(o, projectExists), None))
      && (o.buildBinary ==> r == (GenerationHead(o, projectExists) + RunSteps(BuildGoBinary(exitCode, stderr).0), BuildGoBinary(exitCode, stderr).1))
  {
    if manifest.None? then ([], Some(ArgumentNull("cronManifest")))
    else if options.None? then ([], Some(ArgumentNull("options")))
    else
      var o := options.value;
      var head := GenerationHead(o, projectExists);
      if !o.buildBinary then (head, None)
      else
        var (ran, err) := BuildGoBinary(exitCode, stderr);
        (head + RunSteps(ran), err)
  }

  /** With valid arguments the project directory is deleted at most once and first, the handlers are always written, and the build is the last thing to run. */
  lemma GenerateOrder(manifest: CronManifest, o: GenerationOptions, projectExists: bool,
                      exitCode: GoCommand -> Option<int>, stderr: GoCommand -> string)
    ensures var (steps, err) := Generate(Some(manifest), Some(o), projectExists, exitCode, stderr);
      && WriteHandlers(Paths.Combine(o.projectDirectory, o.outputDirectory)) in steps
      && (forall i :: 0 < i < |steps| ==> !steps[i].DeleteProjectDirectory?)
      && (steps[0].DeleteProjectDirectory? <==> o.cleanBeforeGenerate && projectExists)
      && (err.Some? ==> o.buildBinary && steps[|steps| - 1].RunGo?)
      && (err.None? && o.buildBinary ==> steps[|steps| - 1] == RunGo(Build))
  {
    var (steps, err) := Generate(Some(manifest), Some(o), projectExists, exitCode, stderr);
    var head := GenerationHead(o, projectExists);
    assert steps[..|head|] == head;
    assert head[|head| - 1] == WriteHandlers(Paths.Combine(o.projectDirectory, o.outputDirectory));
    assert steps[|head| - 1] == head[|head| - 1];
  }

  /** The body a handler gets: its own unless that is null or blank, else a line logging the cron id and payload. */
  function HandlerBody(cron: CronDefinition): (r: string)
    ensures !IsNullOrWhiteSpace(cron.handlerBody) ==> r == cron.handlerBody.value
    ensures IsNullOrWhiteSpace(cron.handlerBody) ==> r == "log.Println(\"cron '" + cron.id + "' executed\", payload)"
  {
    if !IsNullOrWhiteSpace(cron.handlerBody) then cron.handlerBody.value
    else "log.Println(\"cron '" + cron.id + "' executed\", payload)"
  }

  /** The entry `entry` of an import list contributes `p`: it is not blank and trims to `p`. */
  predicate Contributes(entry: Option<string>, p: string) {
    !IsNullOrWhiteSpace(entry) && Trim(entry.value) == p
  }

  /** The trimmed non-blank entries of an import list. */
  function PackagesOf(packages: seq<Option<string>>): (r: set<string>)
    ensures forall p :: p in r ==> p != ""
    decreases |packages|
  {
    if |packages| == 0 then {}
    else
      var last := packages[|packages| - 1];
      PackagesOf(packages[..|packages| - 1]) + (if IsNullOrWhiteSpace(last) then {} else {Trim(last.value)})
  }

  /** Every non-blank entry contributes its trimmed text. */
  lemma {:induction false} PackagesOfComplete(packages: seq<Option<string>>, j: int)
    requires 0 <= j < |packages| && !IsNullOrWhiteSpace(packages[j])
    ensures Trim(packages[j].value) in PackagesOf(packages)
    decreases |packages|
  {
    if j < |packages| - 1 {
      var init := packages[..|packages| - 1];
      assert init[j] == packages[j];
      PackagesOfComplete(init, j);
    }
  }

  /** Every package in the set comes from a non-blank entry. */
  lemma {:induction false} PackagesOfSound(packages: seq<Option<string>>, p: string) returns (j: int)
    requires p in PackagesOf(packages)
    ensures 0 <= j < |packages| && Contributes(packages[j], p)
    decreases |packages|
  {
    var init := packages[..|packages| - 1];
    if p in PackagesOf(init) {
      j := PackagesOfSound(init, p);
      assert init[j] == packages[j];
    } else {
      j := |packages| - 1;
    }
  }

  /** The packages the crons ask for. */
  function RequestedImports(crons: seq<CronDefinition>): (r: set<string>)
    decreases |crons|
  {
    if |crons| == 0 then {}
    else
      var last := crons[|crons| - 1];
      RequestedImports(crons[..|crons| - 1]) + (if last.importPackages.None? then {} else PackagesOf(last.importPackages.value))
  }

  /** The template's view of one cron. */
  datatype ProcessedCron = ProcessedCron(id: string, handlerBody: string)

  /** What the generator hands to the handler template. */
  datatype TemplateModel = TemplateModel(outputDir: string, imports: seq<string>, crons: seq<ProcessedCron>)

  /** The inner loop of `GenerateHandlersAsync`: adds each non-blank trimmed package not yet present, as a `HashSet.Add` does. */
  method AddPackages(imported: seq<string>, packages: seq<Option<string>>) returns (r: seq<string>)
    requires Distinct(imported)
    ensures Distinct(r)
    ensures forall p :: p in r <==> p in imported || p in PackagesOf(packages)
  {
    r := imported;
    for j := 0 to |packages|
      invariant Distinct(r)
      invariant forall p :: p in r <==> p in imported || p in PackagesOf(packages[..j])
    {
      assert packages[..j + 1][..j] == packages[..j];
      if !IsNullOrWhiteSpace(packages[j]) {
        var pkg := Trim(packages[j].value);
        if pkg !in r {
          r := r + [pkg];
        }
      }
    }
    assert packages[..|packages|] == packages;
  }

  /**
   * The preprocessing of `GenerateHandlersAsync`: one processed entry per
   * manifest cron, in manifest order, and the imports "log" plus every
   * non-blank requested package trimmed, each once, in ascending order.
   */
  method PrepareHandlers(manifest: CronManifest, options: GenerationOptions) returns (model: TemplateModel)
    ensures model.outputDir == options.outputDirectory
    ensures |model.crons| == |manifest.crons|
    ensures forall i :: 0 <= i < |manifest.crons| ==>
      model.crons[i] == ProcessedCron(manifest.crons[i].id, HandlerBody(manifest.crons[i]))
    ensures forall p :: p in model.imports <==> p == "log" || p in RequestedImports(manifest.crons)
    ensures StrictlyAscending(model.imports)
  {
    var imported: seq<string> := ["log"];
    var processed: seq<ProcessedCron> := [];
    var crons := manifest.crons;
    for i := 0 to |crons|
      invariant Distinct(imported)
      invariant forall p :: p in imported <==> p == "log" || p in RequestedImports(crons[..i])
      invariant |processed| == i
      invariant forall k :: 0 <= k < i ==> processed[k] == ProcessedCron(crons[k].id, HandlerBody(crons[k]))
    {
      var cron := crons[i];
      assert crons[..i + 1][..i] == crons[..i];
      if cron.importPackages.Some? {
        imported := AddPackages(imported, cron.importPackages.value);
      }
      processed := processed + [ProcessedCron(cron.id, HandlerBody(cron))];
    }
    assert crons[..|crons|] == crons;
    var sorted := Sort(imported);
    SortDistinct(imported);
    model := TemplateModel(options.outputDirectory, sorted, processed);
  }

  /** `n` spaces. */
  function Spaces(n: nat): (r: string)
    ensures |r| == n && forall i :: 0 <= i < n ==> r[i] == ' '
  {
    seq(n, _ => ' ')
  }

  /** The width the `indent` filter uses: its first argument, 4 without one. */
  function IndentWidth(arguments: seq<nat>): nat {
    if |arguments| > 0 then arguments[0] else 4
  }

  /** Every piece prefixed with `prefix`. */
  function Prefixed(prefix: string, lines: seq<string>): (r: seq<string>)
    ensures |r| == |lines| && forall i :: 0 <= i < |lines| ==> r[i] == prefix + lines[i]
  {
    seq(|lines|, i requires 0 <= i < |lines| => prefix + lines[i])
  }

  /** The `indent` filter on a string: each '\n'-separated line prefixed with `n` spaces, joined again with '\n'. */
  function Indent(str: string, n: nat): string {
    Join(Prefixed(Spaces(n), Split(str, '\n')), "\n")
  }

  /**
   * The lines of the indented text are the lines of the input, each with `n`
   * spaces in front: the line count is kept and no line is split or merged.
   */
  lemma IndentLines(str: string, n: nat)
    ensures Split(Indent(str, n), '\n') == Prefixed(Spaces(n), Split(str, '\n'))
    ensures |Split(Indent(str, n), '\n')| == |Split(str, '\n')|
  {
    var lines := Split(str, '\n');
    var out := Prefixed(Spaces(n), lines);
    forall i | 0 <= i < |out| ensures '\n' !in out[i] {
      assert out[i] == Spaces(n) + lines[i];
      assert '\n' !in lines[i];
    }
    SplitJoin(out, '\n');
  }
}
