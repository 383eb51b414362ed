/**
 * `PocketBaseHost`: the server process a builder hands back, described by
 * its executable, its options and the command line it is started with.
 */
module PocketBaseHost {
  import opened Wrappers
  import opened Values
  import opened Text
  import opened HostOptions
  import Paths

  /** `BaseUrl`: "http://{Host}:{Port}", a null host printing as nothing. */
  function BaseUrl(o: HostOptions): (r: string)
    ensures |r| >= 7 && r[..7] == "http://"
  {
    "http://" + OrEmpty(o.host) + ":" + IntToString(o.port)
  }

  /** The printed port has no ':' in it. */
  lemma IntToStringNoColon(i: int)
    ensures ':' !in IntToString(i)
  {
    var d := NatToString(if i < 0 then -i else i);
    assert forall k :: 0 <= k < |d| ==> d[k] != ':';
    if i < 0 {
      assert IntToString(i) == "-" + d;
      assert forall k :: 0 <= k < |IntToString(i)| ==> IntToString(i)[k] != ':' by {
        forall k | 0 <= k < |IntToString(i)| ensures IntToString(i)[k] != ':' {
          if k > 0 {
            assert IntToString(i)[k] == d[k - 1];
          }
        }
      }
    }
  }

  /**
   * A host name without ':' and a 32-bit port are read back from the base
   * URL: the host lies between the scheme and the last ':', and the port
   * parses from what follows it.
   */
  lemma BaseUrlRoundTrip(o: HostOptions)
    requires o.host.Some? && ':' !in o.host.value
    requires Int32Min <= o.port <= Int32Max
    ensures var u := BaseUrl(o); var k := Paths.LastIndexOf(u, ':');
      7 <= k && u[7..k] == o.host.value && TryParseInt32(u[k + 1..]) == Some(o.port)
  {
    var u := BaseUrl(o);
    var h := o.host.value;
    var p := IntToString(o.port);
    var c := 7 + |h|;
    assert u == "http://" + h + ":" + p;
    assert u[c] == ':';
    IntToStringNoColon(o.port);
    forall i | c < i < |u| ensures u[i] != ':' {
      assert u[i] == p[i - c - 1];
    }
    var k := Paths.LastIndexOf(u, ':');
    assert k == c;
    assert u[7..k] == h;
    assert u[k + 1..] == p;
    TryParseInt32OfIntToString(o.port);
  }

  const Serve := "serve"
  const DevFlag := " --dev"

  function DirArgument(dir: string): string {
    " --dir=\"" + dir + "\""
  }

  function MigrationsDirArgument(dir: string): string {
    " --migrationsDir=\"" + dir + "\""
  }

  /**
   * `BuildArguments`: "serve", then " --dev" when Dev is set, then the data
   * directory when Dir is not blank, then the migrations directory when
   * MigrationsDir is not blank. Host and Port are not passed.
   */
  function Arguments(o: HostOptions): (r: string)
    ensures |r| >= 5 && r[..5] == Serve
  {
    Serve
      + (if o.dev then DevFlag else "")
      + (if !IsNullOrWhiteSpace(o.dir) then DirArgument(o.dir.value) else "")
      + (if !IsNullOrWhiteSpace(o.migrationsDir) then MigrationsDirArgument(o.migrationsDir.value) else "")
  }

  /** The command line is the same whatever Host and Port say. */
  lemma ArgumentsIgnoreHostAndPort(o: HostOptions, host: Option<string>, port: int)
    ensures Arguments(o.(host := host, port := port)) == Arguments(o)
  {
  }

  /** " --dev" follows "serve" exactly when Dev is set. */
  lemma DevFlagExactlyWhenDev(o: HostOptions)
    ensures var r := Arguments(o); (|r| >= 11 && r[5..11] == DevFlag) <==> o.dev
  {
    var r := Arguments(o);
    if !o.dev {
      if !IsNullOrWhiteSpace(o.dir) {
        assert r[5..] == DirArgument(o.dir.value) + (if !IsNullOrWhiteSpace(o.migrationsDir) then MigrationsDirArgument(o.migrationsDir.value) else "");
        assert r[9] == 'i';
      } else if !IsNullOrWhiteSpace(o.migrationsDir) {
        assert r[5..] == MigrationsDirArgument(o.migrationsDir.value);
        assert r[8] == 'm';
      } else {
        assert r == Serve;
      }
    }
  }

  /** The command line is "serve" alone exactly when Dev is off and both directories are blank. */
  lemma PlainServe(o: HostOptions)
    ensures Arguments(o) == Serve <==> !o.dev && IsNullOrWhiteSpace(o.dir) && IsNullOrWhiteSpace(o.migrationsDir)
  {
    var a := if o.dev then DevFlag else "";
    var b := if !IsNullOrWhiteSpace(o.dir) then DirArgument(o.dir.value) else "";
    var c := if !IsNullOrWhiteSpace(o.migrationsDir) then MigrationsDirArgument(o.migrationsDir.value) else "";
    assert Arguments(o) == Serve + a + b + c;
    if o.dev || !IsNullOrWhiteSpace(o.dir) || !IsNullOrWhiteSpace(o.migrationsDir) {
      assert |a| + |b| + |c| > 0;
      assert |Arguments(o)| > |Serve|;
    }
  }

  /** A host: the executable it runs, the options it was given and the arguments of its process. */
  class Host {
    const executablePath: string
    const options: HostOptions
    const arguments: string

    constructor(executablePath: string, options: HostOptions)
      ensures this.executablePath == executablePath && this.options == options
      ensures arguments == Arguments(options)
    {
      this.executablePath := executablePath;
      this.options := options;
      arguments := Arguments(options);
    }
  }

  const ExecutableNotFound := "PocketBase executable not found"

  /**
   * The constructor: null options mean a new options object (`defaults`);
   * a blank executable path, or one `fileExists` does not know, throws before
   * any process is set up.
   */
  method New(executablePath: Option<string>, options: Option<HostOptions>, defaults: HostOptions, fileExists: string -> bool)
    returns (r: Result<Host, Exn>)
    ensures r.Failure? <==> IsNullOrWhiteSpace(executablePath) || !fileExists(executablePath.value)
    ensures r.Failure? ==> r.error == FileNotFound(ExecutableNotFound)
    ensures r.Success? ==>
      fresh(r.value) && r.value.executablePath == executablePath.value
      && r.value.options == options.GetOr(defaults) && r.value.arguments == Arguments(options.GetOr(defaults))
  {
    var o := options.GetOr(defaults);
    if IsNullOrWhiteSpace(executablePath) || !fileExists(executablePath.value) {
      return Failure(FileNotFound(ExecutableNotFound));
    }
    var host := new Host(executablePath.value, o);
    r := Success(host);
  }
}
