/**
 * `SchemaTemplateMigrationWriter`: the built-in schema templates and where
 * `WriteAsync` puts their migration files. A file system is a class whose
 * directories and files the writer changes; a written file is recorded by
 * the template migration it holds.
 */
module MigrationWriter {
  import opened Wrappers
  import opened Text
  import opened HostOptions
  import Paths

  /** A `CommonSchema` value: the enum's underlying integer, which need not be a defined member. */
  type Schema = int

  const Blog: Schema := 0
  const Todo: Schema := 1
  const ECommerce: Schema := 2

  /** `Enum.IsDefined(typeof(CommonSchema), schema)`. */
  predicate IsDefined(s: Schema) {
    Blog <= s <= ECommerce
  }

  /** The fixed migration scripts, by the constant that holds each. */
  datatype Migration = BlogSchemaMigration | TodoSchemaMigration | ECommerceSchemaMigration

  datatype Template = Template(fileName: string, content: Migration)

  /** The `Templates` table: one entry per defined schema, none for any other value. */
  function TemplateOf(s: Schema): (r: Option<Template>)
    ensures r.Some? <==> IsDefined(s)
    ensures r.Some? ==> r.value.fileName != "" && r.value.fileName[0] != '/'
  {
    if s == Blog then Some(Template("2990000000_pbblazor_blog_schema.js", BlogSchemaMigration))
    else if s == Todo then Some(Template("2990000001_pbblazor_todo_schema.js", TodoSchemaMigration))
    else if s == ECommerce then Some(Template("2990000002_pbblazor_ecommerce_schema.js", ECommerceSchemaMigration))
    else None
  }

  /** Different schemas have different file names and different contents. */
  lemma TemplatesDistinct(s1: Schema, s2: Schema)
    requires IsDefined(s1) && IsDefined(s2) && s1 != s2
    ensures TemplateOf(s1).value.fileName != TemplateOf(s2).value.fileName
    ensures TemplateOf(s1).value.content != TemplateOf(s2).value.content
  {
    DigitAt(s1);
    DigitAt(s2);
  }

  lemma DigitAt(s: Schema)
    requires IsDefined(s)
    ensures |TemplateOf(s).value.fileName| > 9 && TemplateOf(s).value.fileName[9] == Digit(s)
  {
    if s == Blog {
      assert TemplateOf(s).value.fileName == "2990000000_pbblazor_blog_schema.js";
    } else if s == Todo {
      assert TemplateOf(s).value.fileName == "2990000001_pbblazor_todo_schema.js";
    } else {
      assert TemplateOf(s).value.fileName == "2990000002_pbblazor_ecommerce_schema.js";
    }
  }

  /** The last digit of the template's timestamp. */
  function Digit(s: Schema): char {
    if s == Blog then '0' else if s == Todo then '1' else '2'
  }

  /**
   * `ResolveMigrationsDirectory`: MigrationsDir if it is not blank, else
   * "pb_migrations" under Dir if Dir is not blank, else "pb_migrations";
   * never a blank path.
   */
  function MigrationsDirectory(o: HostOptions): (r: string)
    ensures !IsNullOrWhiteSpace(o.migrationsDir) ==> r == o.migrationsDir.value
    ensures IsNullOrWhiteSpace(o.migrationsDir) && !IsNullOrWhiteSpace(o.dir) ==> r == Paths.Combine(o.dir.value, "pb_migrations")
    ensures IsNullOrWhiteSpace(o.migrationsDir) && IsNullOrWhiteSpace(o.dir) ==> r == "pb_migrations"
    ensures !IsBlank(r)
  {
    if !IsNullOrWhiteSpace(o.migrationsDir) then o.migrationsDir.value
    else if !IsNullOrWhiteSpace(o.dir) then
      var p := Paths.Combine(o.dir.value, "pb_migrations");
      assert p[|p| - 1] == 's';
      p
    else
      assert "pb_migrations"[0] == 'p';
      "pb_migrations"
  }

  /** The file a defined schema is written to inside `dir`. */
  function TemplatePath(dir: string, s: Schema): string
    requires IsDefined(s)
  {
    Paths.Combine(dir, TemplateOf(s).value.fileName)
  }

  /** Inside one directory, different schemas are written to different files. */
  lemma TemplatePathsDistinct(dir: string, s1: Schema, s2: Schema)
    requires IsDefined(s1) && IsDefined(s2) && s1 != s2
    ensures TemplatePath(dir, s1) != TemplatePath(dir, s2)
  {
    TemplatesDistinct(s1, s2);
    var n1 := TemplateOf(s1).value.fileName;
    var n2 := TemplateOf(s2).value.fileName;
    if dir == "" {
    } else if dir[|dir| - 1] == '/' {
      assert TemplatePath(dir, s1)[|dir|..] == n1 && TemplatePath(dir, s2)[|dir|..] == n2;
    } else {
      assert TemplatePath(dir, s1)[|dir| + 1..] == n1 && TemplatePath(dir, s2)[|dir| + 1..] == n2;
    }
  }

  /** The files after writing `schemas`, in order, into `dir`, skipping schemas without a template. */
  function Written(files: map<string, Migration>, dir: string, schemas: seq<Schema>): map<string, Migration>
    decreases |schemas|
  {
    if |schemas| == 0 then files
    else
      var before := Written(files, dir, schemas[..|schemas| - 1]);
      var s := schemas[|schemas| - 1];
      if IsDefined(s) then before[TemplatePath(dir, s) := TemplateOf(s).value.content] else before
  }

  /**
   * What a write leaves in each file: every defined schema's file holds its
   * template, and every other file is as it was.
   */
  lemma {:induction false} WrittenAt(files: map<string, Migration>, dir: string, schemas: seq<Schema>, key: string)
    ensures forall s :: s in schemas && IsDefined(s) && TemplatePath(dir, s) == key ==>
      key in Written(files, dir, schemas) && Written(files, dir, schemas)[key] == TemplateOf(s).value.content
    ensures (forall s :: s in schemas && IsDefined(s) ==> TemplatePath(dir, s) != key) ==>
      (key in Written(files, dir, schemas) <==> key in files)
      && (key in files ==> Written(files, dir, schemas)[key] == files[key])
    decreases |schemas|
  {
    if |schemas| > 0 {
      var init := schemas[..|schemas| - 1];
      var last := schemas[|schemas| - 1];
      WrittenAt(files, dir, init, key);
      forall s | s in schemas && IsDefined(s) && TemplatePath(dir, s) == key
        ensures key in Written(files, dir, schemas) && Written(files, dir, schemas)[key] == TemplateOf(s).value.content
      {
        if IsDefined(last) && TemplatePath(dir, last) == key {
          if s != last {
            TemplatePathsDistinct(dir, s, last);
          }
        } else {
          assert s != last;
          assert s in init;
        }
      }
      if forall s :: s in schemas && IsDefined(s) ==> TemplatePath(dir, s) != key {
        assert forall s :: s in init ==> s in schemas;
      }
    }
  }

  /** Which schemas are written matters, the order and any repetition do not. */
  lemma WrittenOrderIrrelevant(files: map<string, Migration>, dir: string, xs: seq<Schema>, ys: seq<Schema>)
    requires forall s :: s in xs <==> s in ys
    ensures Written(files, dir, xs) == Written(files, dir, ys)
  {
    var a := Written(files, dir, xs);
    var b := Written(files, dir, ys);
    forall key
      ensures key in a <==> key in b
      ensures key in a ==> a[key] == b[key]
    {
      WrittenAt(files, dir, xs, key);
      WrittenAt(files, dir, ys, key);
      if s :| s in xs && IsDefined(s) && TemplatePath(dir, s) == key {
        assert s in ys;
      }
    }
  }

  /** Writing the same schemas again leaves the same files. */
  lemma WrittenIdempotent(files: map<string, Migration>, dir: string, schemas: seq<Schema>)
    ensures Written(Written(files, dir, schemas), dir, schemas) == Written(files, dir, schemas)
  {
    var once := Written(files, dir, schemas);
    var twice := Written(once, dir, schemas);
    forall key
      ensures key in twice <==> key in once
      ensures key in twice ==> twice[key] == once[key]
    {
      WrittenAt(files, dir, schemas, key);
      WrittenAt(once, dir, schemas, key);
    }
  }

  /** The directories and files of a file system. */
  class FileSystem {
    var directories: set<string>
    var files: map<string, Migration>

    constructor(directories: set<string>, files: map<string, Migration>)
      ensures this.directories == directories && this.files == files
    {
      this.directories := directories;
      this.files := files;
    }

    /** `Directory.CreateDirectory`. */
    method CreateDirectory(dir: string)
      modifies this
      ensures directories == old(directories) + {dir} && files == old(files)
    {
      directories := directories + {dir};
    }

    /** `File.WriteAllTextAsync`: creates or overwrites. */
    method WriteAllText(path: string, content: Migration)
      modifies this
      ensures files == old(files)[path := content] && directories == old(directories)
    {
      files := files[path := content];
    }
  }

  /**
   * `WriteAsync`: nothing for an empty collection; otherwise the migrations
   * directory is created and each schema with a template is written to it,
   * in the order `order` the collection enumerates its elements in.
   */
  method WriteAsync(schemas: set<Schema>, order: seq<Schema>, options: HostOptions, fs: FileSystem)
    requires forall s :: s in order <==> s in schemas
    modifies fs
    ensures |schemas| == 0 ==> fs.files == old(fs.files) && fs.directories == old(fs.directories)
    ensures |schemas| > 0 ==>
      fs.directories == old(fs.directories) + {MigrationsDirectory(options)}
      && fs.files == Written(old(fs.files), MigrationsDirectory(options), order)
  {
    if |schemas| == 0 {
      return;
    }
    var dir := MigrationsDirectory(options);
    fs.CreateDirectory(dir);
    for i := 0 to |order|
      invariant fs.files == Written(old(fs.files), dir, order[..i])
      invariant fs.directories == old(fs.directories) + {dir}
    {
      assert order[..i + 1][..i] == order[..i];
      var template := TemplateOf(order[i]);
      if template.None? {
        continue;
      }
      var fullPath := Paths.Combine(dir, template.value.fileName);
      fs.WriteAllText(fullPath, template.value.content);
    }
    assert order[..|order|] == order;
  }
}
