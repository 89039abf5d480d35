/** The fixed tables of constants.tsx that the configurator reads: projects,
    environments, phases, host groups and specific tags. Icons, colours and
    phase descriptions are presentation only and are not kept. */
module Constants {

  /** `PROJECTS[i].id` (constants.tsx:11-17). */
  const ProjectIds: seq<string> :=
    ["datafari-core", "frontend-ui", "solr-engine", "mcf-connector", "apache-sso"]

  datatype EnvironmentOption = EnvironmentOption(value: string, caption: string)

  const Environments: seq<EnvironmentOption> := [
    EnvironmentOption("qual", "Qualif"),
    EnvironmentOption("preprod", "Preprod"),
    EnvironmentOption("prod", "Production")
  ]

  datatype PhaseConfig = PhaseConfig(value: string, caption: string)

  const Phases: seq<PhaseConfig> := [
    PhaseConfig("phase_precheck", "Precheck"),
    PhaseConfig("phase_install", "Installation"),
    PhaseConfig("phase_configuration", "Config Globale"),
    PhaseConfig("phase_frontend", "Frontend"),
    PhaseConfig("phase_services", "Services (SSO)"),
    PhaseConfig("phase_start", "Start / Monit"),
    PhaseConfig("phase_deployment", "Déploiement"),
    PhaseConfig("full_pipeline", "Pipeline Complète"),
    PhaseConfig("phase_backup", "Backup")
  ]

  datatype Group = Group(id: string, caption: string)

  const CommonGroups: seq<Group> := [
    Group("all", "Tous (all)"),
    Group("main", "Main"),
    Group("solr", "Solr Nodes"),
    Group("mcf1", "MCF1"),
    Group("mcf2", "MCF2")
  ]

  /** `SPECIFIC_TAGS`: plain strings, not records; nothing in this table has an `id`. */
  const SpecificTags: seq<string> := [
    "uninstall", "ssh", "finger", "java_env", "replace_certs",
    "verif_certilibre", "datafari_properties", "application_properties",
    "build_front", "sidebar", "tika", "apache_sso_cors", "monitor_script",
    "nftables", "fetch_log", "lancement", "widget", "solr", "mcf", "verif", "copie", "logs"
  ]
}
