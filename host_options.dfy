/**
 * The settings of a hosted PocketBase server (`PocketBaseHostOptions`),
 * as the builder, the host and the migration writer read them.
 */
module HostOptions {
  import opened Wrappers

  /**
   * `Host`, `Port`, `Dir`, `Dev`, `MigrationsDir` and `Executable`. The
   * defaults of a new options object are not part of this model: whoever
   * creates one passes them in.
   */
  datatype HostOptions = HostOptions(
    host: Option<string>,
    port: int,
    dir: Option<string>,
    dev: bool,
    migrationsDir: Option<string>,
    executable: Option<string>)
}
