/** The configurator's state machine (App.tsx): the initial record, the
    handlers the page wires to its buttons and inputs, each a shallow merge of
    a partial update into the current record, and the labels of the execution
    summary. */
module App {
  import opened Types
  import opened Text
  import opened Seqs
  import opened Constants
  import opened CommandDisplay

  /** The tags selected by the "Pipeline Complète" phase (App.tsx:109). */
  const FullPipelineTags: seq<string> := [
    "copie", "bootstrap", "verif", "phase_precheck", "phase_install", "phase_configuration",
    "phase_frontend", "phase_mcf", "phase_services", "phase_start", "phase_post", "nftables",
    "lancement", "phase_backup", "logs"
  ]

  /** The tags selected by the "Déploiement" phase (App.tsx:111). */
  const DeploymentTags: seq<string> := [
    "verif", "phase_precheck", "phase_install", "phase_configuration",
    "phase_frontend", "phase_mcf", "phase_services", "phase_start", "phase_post", "nftables",
    "lancement", "phase_backup", "logs"
  ]

  /** `INITIAL_CONFIG`; the fields it leaves undefined hold their empty values. */
  const InitialConfig: Config := Config(
    project := ProjectIds[0],
    environment := "qual",
    action := Deploy,
    version := "main",
    verbose := false,
    checkMode := false,
    tags := ["phase_precheck"],
    skipTags := [],
    extraVars := map[],
    extraVarsRaw := "",
    limit := "all",
    forks := 0,
    diff := false,
    remoteUser := "",
    become := false,
    startAtTask := "",
    step := false,
    syntaxCheck := false,
    listTasks := false,
    listTags := false,
    timeout := 0,
    vaultPassword := "",
    phase := "phase_precheck",
    useMogendHome := false)

  /** The tag list a phase button selects: one of the two aggregate lists, or
      the phase's own id alone. */
  function PhaseTags(phase: string): (r: seq<string>)
    ensures |r| > 0
    ensures phase == "full_pipeline" ==> r == FullPipelineTags
    ensures phase == "phase_deployment" ==> r == DeploymentTags
    ensures phase != "full_pipeline" && phase != "phase_deployment" ==> r == [phase]
  {
    if phase == "full_pipeline" then FullPipelineTags
    else if phase == "phase_deployment" then DeploymentTags
    else [phase]
  }

  /** The deployment list is the full pipeline without `copie` and `bootstrap`,
      in the same order. */
  lemma DeploymentIsPipelineWithoutSetup()
    ensures |FullPipelineTags| == 15 && |DeploymentTags| == 13
    ensures DeploymentTags == FullPipelineTags[2..]
    ensures FullPipelineTags[..2] == ["copie", "bootstrap"]
    ensures "copie" !in DeploymentTags && "bootstrap" !in DeploymentTags
  {
  }

  /** `handlePhaseSelect` (App.tsx:107-117). */
  function SelectPhase(c: Config, phase: string): (r: Config)
    ensures r == c.(tags := PhaseTags(phase), phase := phase)
  {
    Merge(c, NoChange.(tags := Some(PhaseTags(phase)), phase := Some(phase)))
  }

  /** `toggleSpecificTag` (App.tsx:125-130). */
  function ToggleSpecificTag(c: Config, tag: string): (r: Config)
    ensures r == c.(tags := r.tags, phase := "custom")
    ensures tag !in c.tags ==> r.tags == c.tags + [tag]
    ensures tag in c.tags ==> tag !in r.tags
    ensures forall t :: t != tag ==> multiset(r.tags)[t] == multiset(c.tags)[t]
    ensures tag in c.tags ==> IsSubsequence(r.tags, c.tags)
  {
    var newTags := if tag in c.tags then Without(c.tags, tag) else c.tags + [tag];
    Merge(c, NoChange.(tags := Some(newTags), phase := Some("custom")))
  }

  /** The two lists `removeTag` can edit. */
  datatype TagList = TagsList | SkipTagsList

  /** `removeTag` (App.tsx:119-123): drops the element at `index` of one list. */
  function RemoveTag(c: Config, list: TagList, index: int): (r: Config)
    ensures list == TagsList ==> r == c.(tags := r.tags)
    ensures list == SkipTagsList ==> r == c.(skipTags := r.skipTags)
    ensures var before := if list == TagsList then c.tags else c.skipTags;
            var after := if list == TagsList then r.tags else r.skipTags;
            && (0 <= index < |before| ==> after == before[..index] + before[index + 1..])
            && (!(0 <= index < |before|) ==> after == before)
  {
    match list
    case TagsList => Merge(c, NoChange.(tags := Some(RemoveAt(c.tags, index))))
    case SkipTagsList => Merge(c, NoChange.(skipTags := Some(RemoveAt(c.skipTags, index))))
  }

  /** The limit group buttons and the limit text box (App.tsx:218, 234) both
      replace the limit with their value. */
  function SetLimit(c: Config, limit: string): (r: Config)
    ensures r == c.(limit := limit)
  {
    Merge(c, NoChange.(limit := Some(limit)))
  }

  /** Every handler the page wires to a control (App.tsx:171, 191, 218, 234,
      256, 271, 285, 308, 312, 320, 327). The forks input passes
      `parseInt(value) || 0`, modelled as the integer it yields. */
  datatype Event =
    | ChooseEnvironment(environment: string)
    | ChooseProject(project: string)
    | ChooseLimit(limit: string)
    | ChoosePhase(phase: string)
    | ToggleTag(tag: string)
    | RemoveTagAt(list: TagList, index: int)
    | SetRemoteUser(user: string)
    | SetForks(forks: int)
    | ToggleVerbose
    | ToggleCheckMode

  function Step(c: Config, e: Event): Config
  {
    match e
    case ChooseEnvironment(env) => Merge(c, NoChange.(environment := Some(env)))
    case ChooseProject(id) => Merge(c, NoChange.(project := Some(id)))
    case ChooseLimit(l) => SetLimit(c, l)
    case ChoosePhase(p) => SelectPhase(c, p)
    case ToggleTag(t) => ToggleSpecificTag(c, t)
    case RemoveTagAt(list, i) => RemoveTag(c, list, i)
    case SetRemoteUser(u) => Merge(c, NoChange.(remoteUser := Some(u)))
    case SetForks(n) => Merge(c, NoChange.(forks := Some(n)))
    case ToggleVerbose => Merge(c, NoChange.(verbose := Some(!c.verbose)))
    case ToggleCheckMode => Merge(c, NoChange.(checkMode := Some(!c.checkMode)))
  }

  /** The record after the events, in order, starting from `c`. */
  function Run(c: Config, events: seq<Event>): Config
    decreases |events|
  {
    if |events| == 0 then c else Run(Step(c, events[0]), events[1..])
  }

  /** The fields no control of the page writes keep their initial values. */
  predicate Untouched(c: Config)
  {
    && c.skipTags == [] && c.extraVarsRaw == "" && c.diff == false && c.become == false
    && c.startAtTask == "" && c.step == false && c.syntaxCheck == false && c.listTasks == false
    && c.listTags == false && c.timeout == 0 && c.vaultPassword == "" && c.useMogendHome == false
  }

  lemma StepKeepsUntouched(c: Config, e: Event)
    requires Untouched(c)
    ensures Untouched(Step(c, e))
  {
  }

  /** Every record the page can reach from the initial one leaves the untouched
      fields alone. */
  lemma {:induction false} RunKeepsUntouched(c: Config, events: seq<Event>)
    requires Untouched(c)
    ensures Untouched(Run(c, events))
    decreases |events|
  {
    if |events| > 0 {
      StepKeepsUntouched(c, events[0]);
      RunKeepsUntouched(Step(c, events[0]), events[1..]);
    }
  }

  // ---------------------------------------------------------------------------
  // Handler properties.

  /** Toggling a tag that is not selected, twice, gives back the tag list. */
  lemma ToggleTwiceRestoresTags(c: Config, tag: string)
    requires tag !in c.tags
    ensures ToggleSpecificTag(ToggleSpecificTag(c, tag), tag) == c.(phase := "custom")
  {
    var once := ToggleSpecificTag(c, tag);
    assert tag in once.tags;
    AppendThenWithout(c.tags, tag);
  }

  /** Toggling always leaves the aggregate phases, whatever the phase was. */
  lemma ToggleLeavesPhase(c: Config, tag: string)
    ensures ToggleSpecificTag(c, tag).phase == "custom"
    ensures ToggleSpecificTag(c, tag).phase !in PhaseValues()
  {
  }

  /** Choosing a phase never leaves the tag list empty, and choosing it again
      changes nothing. */
  lemma SelectPhaseIdempotent(c: Config, phase: string)
    ensures |SelectPhase(c, phase).tags| > 0
    ensures SelectPhase(SelectPhase(c, phase), phase) == SelectPhase(c, phase)
  {
  }

  /** The limit holds the last value chosen: choices do not accumulate. */
  lemma LastLimitWins(c: Config, first: string, second: string)
    ensures SetLimit(SetLimit(c, first), second) == SetLimit(c, second)
  {
    MergeThen(c, NoChange.(limit := Some(first)), NoChange.(limit := Some(second)));
  }

  /** The "Tous (all)" button removes the host limit from the command. */
  lemma AllGroupDropsLimit(c: Config)
    ensures forall h :: Limit(h) !in AllFlags(PlanOf(SetLimit(c, CommonGroups[0].id)))
  {
    PlanFlagsExactlyWanted(SetLimit(c, CommonGroups[0].id));
  }

  /** Removing a tag shortens the list by one and takes out exactly that tag. */
  lemma RemoveTagShortens(c: Config, index: int)
    requires 0 <= index < |c.tags|
    ensures |RemoveTag(c, TagsList, index).tags| == |c.tags| - 1
    ensures multiset(RemoveTag(c, TagsList, index).tags) + multiset{c.tags[index]} == multiset(c.tags)
  {
    var r := RemoveTag(c, TagsList, index).tags;
    assert c.tags == c.tags[..index] + [c.tags[index]] + c.tags[index + 1..];
  }

  // ---------------------------------------------------------------------------
  // The execution summary (App.tsx:355-368).

  function PhaseValues(): seq<string>
  {
    seq(|Phases|, i requires 0 <= i < |Phases| => Phases[i].value)
  }

  /** `PHASES.find(p => p.value === value)`: the first phase with that value. */
  function FindPhase(phases: seq<PhaseConfig>, value: string): (r: Option<PhaseConfig>)
    ensures r.Some? ==> r.value in phases && r.value.value == value
    ensures r.None? <==> forall i :: 0 <= i < |phases| ==> phases[i].value != value
    ensures r.Some? ==> exists i :: 0 <= i < |phases| && phases[i] == r.value
                                    && forall j :: 0 <= j < i ==> phases[j].value != value
  {
    if |phases| == 0 then None
    else if phases[0].value == value then Some(phases[0])
    else
      var rest := FindPhase(phases[1..], value);
      if rest.Some? then
        var i :| 0 <= i < |phases[1..]| && phases[1..][i] == rest.value
                 && forall j :: 0 <= j < i ==> phases[1..][j].value != value;
        assert phases[i + 1] == rest.value;
        rest
      else rest
  }

  /** The "Limit Target" cell: `config.limit || 'ALL'`. */
  function LimitLabel(c: Config): (r: string)
    ensures r == "ALL" <==> c.limit == "" || c.limit == "ALL"
    ensures c.limit != "" ==> r == c.limit
  {
    if c.limit == "" then "ALL" else c.limit
  }

  /** The "Opération" cell: `PHASES.find(...)?.label || 'MANUAL'`. */
  function PhaseLabel(phases: seq<PhaseConfig>, phase: string): (r: string)
    ensures (forall i :: 0 <= i < |phases| ==> phases[i].value != phase) ==> r == "MANUAL"
    ensures forall i :: (0 <= i < |phases| && phases[i].value == phase && phases[i].caption != ""
                         && forall j :: 0 <= j < i ==> phases[j].value != phase) ==> r == phases[i].caption
  {
    var found := FindPhase(phases, phase);
    var caption := if found.Some? then found.value.caption else "";
    if caption == "" then "MANUAL" else caption
  }

  /** Every phase of the table has a caption other than `MANUAL`. */
  lemma PhaseCaptions()
    ensures forall i :: 0 <= i < |Phases| ==> Phases[i].caption != "" && Phases[i].caption != "MANUAL"
  {
  }

  /** The summary reads `MANUAL` exactly when the phase is not in the table. */
  lemma ManualIffUnknownPhase(phase: string)
    ensures PhaseLabel(Phases, phase) == "MANUAL" <==> phase !in PhaseValues()
  {
    PhaseCaptions();
    if phase in PhaseValues() {
      var k :| 0 <= k < |Phases| && Phases[k].value == phase;
      var found := FindPhase(Phases, phase);
      assert found.Some?;
    } else {
      assert forall i :: 0 <= i < |Phases| ==> Phases[i].value != phase by {
        forall i | 0 <= i < |Phases|
          ensures Phases[i].value != phase
        {
          assert PhaseValues()[i] == Phases[i].value;
        }
      }
    }
  }

  /** The "Vault" cell: a fixed text, whatever the record holds. */
  const VaultCell: string := "--ask-vault-pass"

  /** A record with no password asks for it. */
  lemma UntouchedAsksPassword(c: Config)
    requires Untouched(c)
    ensures AskVaultPass in AllFlags(PlanOf(c))
  {
    assert IsBlank(c.vaultPassword);
    VaultFlagsExclusive(c);
  }

  /** On every record the page can reach, the fixed Vault cell is right: the
      command asks for the vault password, with the flag the cell shows. */
  lemma VaultCellMatchesCommand(events: seq<Event>)
    ensures AskVaultPass in AllFlags(PlanOf(Run(InitialConfig, events)))
    ensures RenderFlag(AskVaultPass) == " " + VaultCell
  {
    var c := Run(InitialConfig, events);
    RunKeepsUntouched(InitialConfig, events);
    UntouchedAsksPassword(c);
    VaultCellIsAskFlag();
  }

  lemma VaultCellIsAskFlag()
    ensures RenderFlag(AskVaultPass) == " " + VaultCell
  {
  }

  /** No record the page can reach prefixes the `cd "$MOGEND_HOME"` line. */
  lemma ReachableHasNoHomeStage(events: seq<Event>)
    ensures !StartsWith(Compose(Run(InitialConfig, events)), HomePrefix)
  {
    var c := Run(InitialConfig, events);
    RunKeepsUntouched(InitialConfig, events);
    assert !c.useMogendHome;
    HomePrefixIffSwitch(c);
  }

  /** After toggling a specific tag the summary reads `MANUAL`. */
  lemma ToggleShowsManual(c: Config, tag: string)
    ensures PhaseLabel(Phases, ToggleSpecificTag(c, tag).phase) == "MANUAL"
  {
    ToggleLeavesPhase(c, tag);
    ManualIffUnknownPhase("custom");
  }

  // ---------------------------------------------------------------------------
  // Commands of particular records.

  /** The plan of the initial record: only the tag flag, and the password prompt. */
  lemma InitialPlan()
    ensures PlanOf(InitialConfig) == Plan(false, "qual", [Tags(["phase_precheck"])], None, [])
  {
    var c := InitialConfig;
    FilterTarget(c);
    FilterLate(c);
    assert TargetFlags(c) == [] + [Tags(["phase_precheck"])] + [];
    assert OptionFlags(c) + ToggleFlags(c) + TaskAndVarsFlags(c) == [];
  }

  lemma RenderOne(f: Flag)
    ensures RenderFlags([f]) == RenderFlag(f)
  {
    RenderFlagsSnoc([], f);
    assert [] + [f] == [f];
  }

  /** The command shown when the page opens:
      `ansible-playbook playbooks/install.yml -i inventories/qual/inventory.ini --tags "phase_precheck" --ask-vault-pass`. */
  lemma InitialCommand()
    ensures Compose(InitialConfig)
         == Invocation("qual") + RenderFlag(Tags(["phase_precheck"])) + RenderFlag(AskVaultPass)
  {
    ComposeFollowsPlan(InitialConfig);
    InitialPlan();
    var inv, t, a := Invocation("qual"), RenderFlag(Tags(["phase_precheck"])), RenderFlag(AskVaultPass);
    RenderOne(Tags(["phase_precheck"]));
    assert Compose(InitialConfig) == "" + (inv + t + a) + "";
  }

  /** A record with a password and a fork count. */
  const PasswordAndForks: Config := InitialConfig.(vaultPassword := "pw", forks := 10)

  lemma PasswordAndForksPlan()
    ensures PlanOf(PasswordAndForks) == Plan(false, "qual", [Tags(["phase_precheck"])], Some("pw"), [Forks(10)])
  {
    var c := PasswordAndForks;
    FilterTarget(c);
    FilterLate(c);
    assert TargetFlags(c) == [] + [Tags(["phase_precheck"])] + [];
    assert OptionFlags(c) == [Forks(10)] + [] + [];
    assert ToggleFlags(c) + TaskAndVarsFlags(c) == [];
    assert !IsBlank(c.vaultPassword) by {
      assert !IsWhitespace(c.vaultPassword[0]);
    }
  }

  /** With a password and `-f 10` the command is
      `echo "pw" > .vault_pass && ansible-playbook … --tags "phase_precheck" --vault-password-file .vault_pass && rm .vault_pass -f 10`:
      the fork count lands on `rm`. The intended command passes it to the
      playbook and deletes the file last. */
  lemma ForksLandOnCleanup()
    ensures Compose(PasswordAndForks)
         == EchoStage("pw") + Invocation("qual") + RenderFlag(Tags(["phase_precheck"]))
            + RenderFlag(VaultPasswordFile) + RmStage + RenderFlag(Forks(10))
    ensures ComposeIntended(PasswordAndForks)
         == EchoStage("pw") + Invocation("qual") + RenderFlag(Tags(["phase_precheck"]))
            + RenderFlag(VaultPasswordFile) + RenderFlag(Forks(10)) + RmStage
  {
    var c := PasswordAndForks;
    ComposeFollowsPlan(c);
    IntendedFollowsPlan(c);
    PasswordAndForksPlan();
    var e, inv, t, v, f := EchoStage("pw"), Invocation("qual"), RenderFlag(Tags(["phase_precheck"])),
      RenderFlag(VaultPasswordFile), RenderFlag(Forks(10));
    RenderOne(Tags(["phase_precheck"]));
    RenderOne(Forks(10));
    RenderFlagsSnoc([Tags(["phase_precheck"])], VaultPasswordFile);
    RenderFlagsSnoc([Tags(["phase_precheck"]), VaultPasswordFile], Forks(10));
    assert [Tags(["phase_precheck"])] + [VaultPasswordFile] + [Forks(10)]
        == [Tags(["phase_precheck"]), VaultPasswordFile] + [Forks(10)];
    assert [Tags(["phase_precheck"])] + [VaultPasswordFile] == [Tags(["phase_precheck"]), VaultPasswordFile];
    RegroupWitness(e, inv, t, v, RmStage, f);
  }

  lemma RegroupWitness(e: string, inv: string, t: string, v: string, rm: string, f: string)
    ensures "" + (e + (inv + t + v) + rm) + f == e + inv + t + v + rm + f
    ensures "" + e + inv + (t + v + f) + rm == e + inv + t + v + f + rm
  {
  }
}
