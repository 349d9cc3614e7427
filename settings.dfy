/** What the enrollment run is given from outside: the configuration it
    reads and the services it talks to. */
module Settings {
  import opened Endpoint
  import opened Remote

  /** The configuration entries the run reads: `m7.endpoints.people`,
      `m7.endpoints.files`, `utility_settings.biometry_type_id`,
      `utility_settings.biometry_upload_url` (a `str.format` template),
      `m7.protocol`, `m7.root_domain`,
      `utility_settings.check_biorecord_photos` and
      `utility_settings.source_biometry_folder`. */
  datatype Config = Config(
    peopleUrl: string,
    filesUrl: string,
    biometryTypeId: string,
    biometryUploadUrl: string,
    protocol: string,
    rootDomain: string,
    checkConfig: CheckConfig,
    sourceFolder: string)

  /** The fixed part of the world a run sees: which remote calls fail, the
      endpoint registry, the stations client, the configuration, and the
      image files on disk by path. */
  datatype Env = Env(
    down: set<Call>,
    urlOf: string -> string,
    derive: (string, Bytes) -> Template,
    check: (string, seq<Template>) -> CheckResult,
    config: Config,
    disk: map<string, Bytes>)
}
