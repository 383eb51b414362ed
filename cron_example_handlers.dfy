/**
 * The example handlers the cron server registers at start-up: `hello`,
 * which greets a name six times with a growing count, `cleanup`, and
 * `db-dump`, which picks an output path, makes its directory and collects
 * the requested table names before running sqlite3. Waiting on the ticker,
 * creating directories and running the dump are parameters or left out;
 * what remains is how each handler reads its payload.
 */
module CronExampleHandlers {
  import opened Wrappers
  import opened Values
  import opened Text
  import opened Scheduling
  import CronServerRuntime

  /** The handlers registered by the start-up code, by id. */
  function ExampleHandlers(): (r: map<JobId, Handler>)
    ensures r.Keys == {"hello", "cleanup", "db-dump"}
    ensures forall id :: id in r ==> r[id] == Handler(id)
  {
    map["hello" := Handler("hello"), "cleanup" := Handler("cleanup"), "db-dump" := Handler("db-dump")]
  }

  /** The start-up registration: three `RegisterHandler` calls, under exactly "hello", "cleanup" and "db-dump". */
  method RegisterExampleHandlers(rt: CronServerRuntime.Runtime)
    modifies rt
    ensures rt.handlers == old(rt.handlers) + ExampleHandlers()
    ensures rt.payloads == old(rt.payloads) && rt.log == old(rt.log)
  {
    rt.RegisterHandler("hello", Handler("hello"));
    rt.RegisterHandler("cleanup", Handler("cleanup"));
    rt.RegisterHandler("db-dump", Handler("db-dump"));
  }

  /** `payload[key].(string)` when it succeeds with a non-empty string. */
  predicate HasNonEmptyString(payload: Payload, key: string) {
    key in payload && payload[key].JString? && payload[key].s != ""
  }

  /** The name `hello` greets: the payload's non-empty "name" string, otherwise "World!". */
  function GreetedName(payload: Payload): (r: string)
    ensures HasNonEmptyString(payload, "name") ==> r == payload["name"].s
    ensures !HasNonEmptyString(payload, "name") ==> r == "World!"
    ensures r != ""
  {
    if HasNonEmptyString(payload, "name") then payload["name"].s else "World!"
  }

  /** The count `hello` starts from: the payload's numeric "count", otherwise 0. */
  function StartCount(payload: Payload): (r: int)
    ensures "count" in payload && payload["count"].JNumber? ==> r == payload["count"].n
    ensures !("count" in payload && payload["count"].JNumber?) ==> r == 0
  {
    if "count" in payload && payload["count"].JNumber? then payload["count"].n else 0
  }

  /**
   * `hello`: the name it greets and the counts it logs ("Hello, <name> <count>"),
   * six of them, the k-th (from 0) being the start count plus 10 * (k + 1).
   */
  method Hello(payload: Payload) returns (name: string, logged: seq<int>)
    ensures name == GreetedName(payload)
    ensures |logged| == 6
    ensures forall k :: 0 <= k < 6 ==> logged[k] == StartCount(payload) + 10 * (k + 1)
  {
    name := "World!";
    var count := 0;
    if "name" in payload && payload["name"].JString? && payload["name"].s != "" {
      name := payload["name"].s;
    }
    if "count" in payload && payload["count"].JNumber? {
      count := payload["count"].n;
    }
    logged := [];
    for i := 0 to 6
      invariant |logged| == i
      invariant count == StartCount(payload) + 10 * i
      invariant forall k :: 0 <= k < i ==> logged[k] == StartCount(payload) + 10 * (k + 1)
    {
      count := count + 10;
      logged := logged + [count];
    }
  }

  /** `cleanup` logs one fixed line whatever its payload. */
  method Cleanup(payload: Payload) returns (logged: seq<string>)
    ensures logged == ["cleanup cron fired"]
  {
    logged := ["cleanup cron fired"];
  }

  /** The string elements of a JSON array, in their order; other elements are dropped. */
  function StringElements(items: seq<Json>): (r: seq<string>)
    ensures |r| <= |items|
    decreases |items|
  {
    if |items| == 0 then []
    else
      var last := items[|items| - 1];
      StringElements(items[..|items| - 1]) + (if last.JString? then [last.s] else [])
  }

  /** Exactly the strings held by the array appear among its string elements. */
  lemma {:induction false} StringElementsMembers(items: seq<Json>, t: string)
    ensures t in StringElements(items) <==> JString(t) in items
    decreases |items|
  {
    if |items| > 0 {
      var init := items[..|items| - 1];
      StringElementsMembers(init, t);
      assert items == init + [items[|items| - 1]];
    }
  }

  /** Collecting string elements distributes over concatenation, so the original order is kept. */
  lemma {:induction false} StringElementsAppend(a: seq<Json>, b: seq<Json>)
    ensures StringElements(a + b) == StringElements(a) + StringElements(b)
    decreases |b|
  {
    if |b| > 0 {
      var b' := b[..|b| - 1];
      assert (a + b)[..|a + b| - 1] == a + b';
      StringElementsAppend(a, b');
    } else {
      assert a + b == a;
    }
  }

  /** An array of strings only keeps all of them. */
  lemma {:induction false} StringElementsOfStrings(names: seq<string>)
    ensures StringElements(seq(|names|, i requires 0 <= i < |names| => JString(names[i]))) == names
    decreases |names|
  {
    if |names| > 0 {
      var items := seq(|names|, i requires 0 <= i < |names| => JString(names[i]));
      var init := names[..|names| - 1];
      StringElementsOfStrings(init);
      assert items[..|items| - 1] == seq(|init|, i requires 0 <= i < |init| => JString(init[i]));
      assert names == init + [names[|names| - 1]];
    }
  }

  /** The table names `db-dump` collects: the string elements of an array "tables", otherwise none. */
  function RequestedTables(payload: Payload): (r: seq<string>)
    ensures !("tables" in payload && payload["tables"].JArray?) ==> r == []
    ensures "tables" in payload && payload["tables"].JArray? ==> r == StringElements(payload["tables"].items)
  {
    if "tables" in payload && payload["tables"].JArray? then StringElements(payload["tables"].items) else []
  }

  /** Where `db-dump` writes: the payload's non-empty "output_dir" string, otherwise "./dump.sql". */
  function OutputPath(payload: Payload): (r: string)
    ensures HasNonEmptyString(payload, "output_dir") ==> r == payload["output_dir"].s
    ensures !HasNonEmptyString(payload, "output_dir") ==> r == "./dump.sql"
  {
    if HasNonEmptyString(payload, "output_dir") then payload["output_dir"].s else "./dump.sql"
  }

  /** Whether `db-dump` has to create the parent directory `dir` first. */
  predicate NeedsDirectory(dir: string) {
    dir != "." && dir != ""
  }

  /** How a `db-dump` run ended. */
  datatype DumpOutcome =
      /** Creating `dir` failed; nothing was dumped. */
    | MkdirFailed(dir: string)
      /** The dump command was run, after creating `createdDir` when one was needed. */
    | Dumped(outputPath: string, createdDir: Option<string>, tables: seq<string>, command: seq<string>)

  /**
   * `db-dump` with `parentDir` for `filepath.Dir` and `mkdirAll` for whether
   * `os.MkdirAll` succeeds on a directory.
   */
  method DbDump(payload: Payload, parentDir: string -> string, mkdirAll: string -> bool) returns (r: DumpOutcome)
    ensures var dir := parentDir(OutputPath(payload));
      && (NeedsDirectory(dir) && !mkdirAll(dir) ==> r == MkdirFailed(dir))
      && (!(NeedsDirectory(dir) && !mkdirAll(dir)) ==>
            r == Dumped(OutputPath(payload), if NeedsDirectory(dir) then Some(dir) else None,
                        RequestedTables(payload),
                        ["sqlite3", "./pb_data/data.db", ".output " + OutputPath(payload), ".dump"]))
  {
    var outputDir := "./dump.sql";
    if "output_dir" in payload && payload["output_dir"].JString? && payload["output_dir"].s != "" {
      outputDir := payload["output_dir"].s;
    }
    var dir := parentDir(outputDir);
    var created: Option<string> := None;
    if dir != "." && dir != "" {
      if !mkdirAll(dir) {
        return MkdirFailed(dir);
      }
      created := Some(dir);
    }
    var filterTables: seq<string> := [];
    if "tables" in payload && payload["tables"].JArray? {
      var tables := payload["tables"].items;
      for i := 0 to |tables|
        invariant filterTables == StringElements(tables[..i])
      {
        assert tables[..i + 1][..i] == tables[..i];
        if tables[i].JString? {
          filterTables := filterTables + [tables[i].s];
        }
      }
      assert tables[..|tables|] == tables;
    }
    r := Dumped(outputDir, created, filterTables, ["sqlite3", "./pb_data/data.db", ".output " + outputDir, ".dump"]);
  }
}
