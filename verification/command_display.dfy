/** The command composer of components/CommandDisplay.tsx: the pure mapping from
    a configuration record to the `ansible-playbook` command line shown to the
    operator.

    `Compose` follows the source step by step (a fixed invocation, flags added
    one `if` at a time, the vault wrapping, the optional `cd` prefix).
    `Plan`/`Render` describe the same command declaratively, as the list of
    flags it carries and the shell stages around them; `ComposeFollowsPlan`
    connects the two, and the remaining lemmas state what the command holds. */
module CommandDisplay {
  import opened Types
  import opened Text
  import opened Seqs

  const Playbook: string := "playbooks/install.yml"

  /** The `cd "$MOGEND_HOME" && \` line and its line break. */
  const HomePrefix: string := "cd \"$MOGEND_HOME\" && \\\n"

  /** The stage that writes the password file, before the playbook runs. */
  function EchoStage(password: string): string
  {
    "echo \"" + password + "\" > .vault_pass && "
  }

  /** The stage that deletes the password file, after the playbook runs. */
  const RmStage: string := " && rm .vault_pass"

  /** The inventory path: the environment is inserted verbatim, unvalidated. */
  function Inventory(environment: string): string
  {
    "inventories/" + environment + "/inventory.ini"
  }

  function Invocation(environment: string): string
  {
    "ansible-playbook " + Playbook + " -i " + Inventory(environment)
  }

  /** `${n}` for an integer. */
  function NumberText(n: int): string
  {
    if n < 0 then "-" + NatToString(-n) else NatToString(n)
  }

  /** `if (cond) baseCmd += piece`. */
  function AppendIf(s: string, cond: bool, piece: string): string
  {
    if cond then s + piece else s
  }

  /** The vault test: `config.vaultPassword && config.vaultPassword.trim().length > 0`. */
  predicate UsesPasswordFile(c: Config)
  {
    |Trim(c.vaultPassword)| > 0
  }

  datatype Flag =
    | Limit(hosts: string)
    | Tags(names: seq<string>)
    | SkipTags(names: seq<string>)
    | VaultPasswordFile
    | AskVaultPass
    | Forks(count: int)
    | Timeout(seconds: int)
    | RemoteUser(user: string)
    | Become
    | Verbose
    | Check
    | Diff
    | Step
    | SyntaxCheck
    | ListTasks
    | ListTags
    | StartAtTask(task: string)
    | ExtraVars(raw: string)

  function RenderFlag(f: Flag): string
  {
    match f
    case Limit(h) => " -l \"" + h + "\""
    case Tags(ts) => " --tags \"" + Join(ts, ",") + "\""
    case SkipTags(ts) => " --skip-tags \"" + Join(ts, ",") + "\""
    case VaultPasswordFile => " --vault-password-file .vault_pass"
    case AskVaultPass => " --ask-vault-pass"
    case Forks(n) => " -f " + NumberText(n)
    case Timeout(n) => " --timeout " + NumberText(n)
    case RemoteUser(u) => " -u " + u
    case Become => " --become"
    case Verbose => " -vvv"
    case Check => " --check"
    case Diff => " --diff"
    case Step => " --step"
    case SyntaxCheck => " --syntax-check"
    case ListTasks => " --list-tasks"
    case ListTags => " --list-tags"
    case StartAtTask(t) => " --start-at-task \"" + t + "\""
    case ExtraVars(x) => " -e \"" + x + "\""
  }

  function RenderFlags(fs: seq<Flag>): string
  {
    ConcatMap(fs, RenderFlag)
  }

  /** The invocation with its target and tag flags (CommandDisplay.tsx:16-33). */
  function TargetedInvocation(c: Config): string
  {
    var cmd0 := Invocation(c.environment);
    var cmd1 := AppendIf(cmd0, c.limit != "" && c.limit != "all", RenderFlag(Limit(c.limit)));
    var cmd2 := AppendIf(cmd1, |c.tags| > 0, RenderFlag(Tags(c.tags)));
    AppendIf(cmd2, |c.skipTags| > 0, RenderFlag(SkipTags(c.skipTags)))
  }

  /** The vault branch (CommandDisplay.tsx:36-40): either the whole command so far
      is wrapped between writing and deleting `.vault_pass`, or the operator is
      asked for the password. The `echo` embeds the untrimmed password. */
  function WithVault(c: Config, cmd: string): string
  {
    if UsesPasswordFile(c) then
      EchoStage(c.vaultPassword) + cmd + RenderFlag(VaultPasswordFile) + RmStage
    else
      cmd + RenderFlag(AskVaultPass)
  }

  /** The numeric and user options (CommandDisplay.tsx:43-53), appended to
      whatever the command is at that point. */
  function WithOptions(c: Config, cmd: string): string
  {
    var cmd1 := AppendIf(cmd, c.forks > 0, RenderFlag(Forks(c.forks)));
    var cmd2 := AppendIf(cmd1, c.timeout > 0, RenderFlag(Timeout(c.timeout)));
    AppendIf(cmd2, c.remoteUser != "", RenderFlag(RemoteUser(c.remoteUser)))
  }

  /** The switches (CommandDisplay.tsx:56-62). `become` is not among them. */
  function WithToggles(c: Config, cmd: string): string
  {
    var cmd1 := AppendIf(cmd, c.verbose, RenderFlag(Verbose));
    var cmd2 := AppendIf(cmd1, c.checkMode, RenderFlag(Check));
    var cmd3 := AppendIf(cmd2, c.diff, RenderFlag(Diff));
    var cmd4 := AppendIf(cmd3, c.step, RenderFlag(Step));
    var cmd5 := AppendIf(cmd4, c.syntaxCheck, RenderFlag(SyntaxCheck));
    var cmd6 := AppendIf(cmd5, c.listTasks, RenderFlag(ListTasks));
    AppendIf(cmd6, c.listTags, RenderFlag(ListTags))
  }

  /** The free-text options (CommandDisplay.tsx:64-70). */
  function WithTaskAndVars(c: Config, cmd: string): string
  {
    var cmd1 := AppendIf(cmd, c.startAtTask != "", RenderFlag(StartAtTask(c.startAtTask)));
    AppendIf(cmd1, c.extraVarsRaw != "", RenderFlag(ExtraVars(c.extraVarsRaw)))
  }

  /** Everything after the vault branch (CommandDisplay.tsx:43-70). */
  function WithAdvancedFlags(c: Config, cmd: string): string
  {
    WithTaskAndVars(c, WithToggles(c, WithOptions(c, cmd)))
  }

  /** The optional `cd "$MOGEND_HOME"` stage (CommandDisplay.tsx:73-77). */
  function WithHome(c: Config, cmd: string): string
  {
    if c.useMogendHome then HomePrefix + cmd else cmd
  }

  /** `generateCommand` as written (CommandDisplay.tsx:14-78). */
  function Compose(c: Config): string
  {
    WithHome(c, WithAdvancedFlags(c, WithVault(c, TargetedInvocation(c))))
  }

  // ---------------------------------------------------------------------------
  // The command described declaratively: the flags a configuration calls for,
  // taken in a fixed order, inside the shell stages around the playbook.

  /** Declaratively, which flags a configuration calls for: each flag under its
      own condition (numbers when positive, text when non-empty, switches when
      on), exactly one of the two vault flags, and never `--become`. */
  predicate Wanted(c: Config, f: Flag)
  {
    match f
    case Limit(h) => h == c.limit && h != "" && h != "all"
    case Tags(ts) => ts == c.tags && |ts| > 0
    case SkipTags(ts) => ts == c.skipTags && |ts| > 0
    case VaultPasswordFile => !IsBlank(c.vaultPassword)
    case AskVaultPass => IsBlank(c.vaultPassword)
    case Forks(n) => n == c.forks && n > 0
    case Timeout(n) => n == c.timeout && n > 0
    case RemoteUser(u) => u == c.remoteUser && u != ""
    case Become => false
    case Verbose => c.verbose
    case Check => c.checkMode
    case Diff => c.diff
    case Step => c.step
    case SyntaxCheck => c.syntaxCheck
    case ListTasks => c.listTasks
    case ListTags => c.listTags
    case StartAtTask(t) => t == c.startAtTask && t != ""
    case ExtraVars(x) => x == c.extraVarsRaw && x != ""
  }

  function WantedBy(c: Config): Flag -> bool
  {
    f => Wanted(c, f)
  }

  function TargetOrder(c: Config): seq<Flag>
  {
    [Limit(c.limit), Tags(c.tags), SkipTags(c.skipTags)]
  }

  function OptionOrder(c: Config): seq<Flag>
  {
    [Forks(c.forks), Timeout(c.timeout), RemoteUser(c.remoteUser)]
  }

  const ToggleOrder: seq<Flag> := [Verbose, Check, Diff, Step, SyntaxCheck, ListTasks, ListTags]

  function TaskAndVarsOrder(c: Config): seq<Flag>
  {
    [StartAtTask(c.startAtTask), ExtraVars(c.extraVarsRaw)]
  }

  /** The flags that can follow the vault flag: numeric and user options,
      `--become`, the switches, the free-text options. */
  function LateOrder(c: Config): seq<Flag>
  {
    OptionOrder(c) + [Become] + ToggleOrder + TaskAndVarsOrder(c)
  }

  /** Every flag the command can carry for `c`, in a fixed order. */
  function FlagOrder(c: Config): seq<Flag>
  {
    TargetOrder(c) + [VaultPasswordFile, AskVaultPass] + LateOrder(c)
  }

  /** The command's structure: an optional `cd` stage, the playbook invocation
      with the flags placed before the vault flag (`early`), the vault flag with,
      when a password file is used, the `echo`/`rm` stages around the invocation,
      and the flags appended after the vault branch (`late`). */
  datatype Plan = Plan(
    home: bool,
    environment: string,
    early: seq<Flag>,
    password: Option<string>,
    late: seq<Flag>)

  function VaultFlag(p: Plan): Flag
  {
    if p.password.Some? then VaultPasswordFile else AskVaultPass
  }

  function AllFlags(p: Plan): seq<Flag>
  {
    p.early + [VaultFlag(p)] + p.late
  }

  function HomeText(home: bool): string
  {
    if home then HomePrefix else ""
  }

  function Render(p: Plan): string
  {
    var playbook := Invocation(p.environment) + RenderFlags(p.early) + RenderFlag(VaultFlag(p));
    var stages := match p.password
      case Some(pw) => EchoStage(pw) + playbook + RmStage
      case None => playbook;
    HomeText(p.home) + stages + RenderFlags(p.late)
  }

  /** The plan a configuration calls for: the wanted flags in the fixed order,
      a password file for any password that is not blank. */
  function PlanOf(c: Config): Plan
  {
    Plan(
      c.useMogendHome,
      c.environment,
      Filter(TargetOrder(c), WantedBy(c)),
      if IsBlank(c.vaultPassword) then None else Some(c.vaultPassword),
      Filter(LateOrder(c), WantedBy(c)))
  }

  // ---------------------------------------------------------------------------
  // The composer's sections are the plan's flag lists.

  /** The flags one section of the composer appends, one `if` at a time. */
  function Opt(cond: bool, f: Flag): seq<Flag>
  {
    if cond then [f] else []
  }

  function TargetFlags(c: Config): seq<Flag>
  {
    Opt(c.limit != "" && c.limit != "all", Limit(c.limit))
    + Opt(|c.tags| > 0, Tags(c.tags))
    + Opt(|c.skipTags| > 0, SkipTags(c.skipTags))
  }

  function OptionFlags(c: Config): seq<Flag>
  {
    Opt(c.forks > 0, Forks(c.forks))
    + Opt(c.timeout > 0, Timeout(c.timeout))
    + Opt(c.remoteUser != "", RemoteUser(c.remoteUser))
  }

  function ToggleFlags(c: Config): seq<Flag>
  {
    Opt(c.verbose, Verbose)
    + Opt(c.checkMode, Check)
    + Opt(c.diff, Diff)
    + Opt(c.step, Step)
    + Opt(c.syntaxCheck, SyntaxCheck)
    + Opt(c.listTasks, ListTasks)
    + Opt(c.listTags, ListTags)
  }

  function TaskAndVarsFlags(c: Config): seq<Flag>
  {
    Opt(c.startAtTask != "", StartAtTask(c.startAtTask))
    + Opt(c.extraVarsRaw != "", ExtraVars(c.extraVarsRaw))
  }

  lemma RenderFlagsSnoc(fs: seq<Flag>, f: Flag)
    ensures RenderFlags(fs + [f]) == RenderFlags(fs) + RenderFlag(f)
  {
    ConcatMapSnoc(fs, f, RenderFlag);
  }

  /** One conditional append of the source is one optional flag of the plan. */
  lemma AppendIfIsOpt(head: string, fs: seq<Flag>, cond: bool, f: Flag)
    ensures AppendIf(head + RenderFlags(fs), cond, RenderFlag(f)) == head + RenderFlags(fs + Opt(cond, f))
  {
    if cond {
      RenderFlagsSnoc(fs, f);
    } else {
      assert fs + [] == fs;
    }
  }

  lemma RenderFlagsAppend(a: seq<Flag>, b: seq<Flag>)
    ensures RenderFlags(a + b) == RenderFlags(a) + RenderFlags(b)
  {
    ConcatMapAppend(a, b, RenderFlag);
  }

  lemma TargetedFollowsPlan(c: Config)
    ensures TargetedInvocation(c) == Invocation(c.environment) + RenderFlags(TargetFlags(c))
  {
    var head := Invocation(c.environment);
    var o1 := Opt(c.limit != "" && c.limit != "all", Limit(c.limit));
    var o2 := Opt(|c.tags| > 0, Tags(c.tags));
    assert head == head + RenderFlags([]);
    AppendIfIsOpt(head, [], c.limit != "" && c.limit != "all", Limit(c.limit));
    assert [] + o1 == o1;
    AppendIfIsOpt(head, o1, |c.tags| > 0, Tags(c.tags));
    AppendIfIsOpt(head, o1 + o2, |c.skipTags| > 0, SkipTags(c.skipTags));
  }

  lemma OptionsFollowPlan(c: Config, cmd: string)
    ensures WithOptions(c, cmd) == cmd + RenderFlags(OptionFlags(c))
  {
    var o1 := Opt(c.forks > 0, Forks(c.forks));
    var o2 := Opt(c.timeout > 0, Timeout(c.timeout));
    assert cmd == cmd + RenderFlags([]);
    AppendIfIsOpt(cmd, [], c.forks > 0, Forks(c.forks));
    assert [] + o1 == o1;
    AppendIfIsOpt(cmd, o1, c.timeout > 0, Timeout(c.timeout));
    AppendIfIsOpt(cmd, o1 + o2, c.remoteUser != "", RemoteUser(c.remoteUser));
  }

  lemma TogglesFollowPlan(c: Config, cmd: string)
    ensures WithToggles(c, cmd) == cmd + RenderFlags(ToggleFlags(c))
  {
    var l1 := Opt(c.verbose, Verbose);
    var l2 := l1 + Opt(c.checkMode, Check);
    var l3 := l2 + Opt(c.diff, Diff);
    var l4 := l3 + Opt(c.step, Step);
    var l5 := l4 + Opt(c.syntaxCheck, SyntaxCheck);
    var l6 := l5 + Opt(c.listTasks, ListTasks);
    var l7 := l6 + Opt(c.listTags, ListTags);
    var cmd1 := AppendIf(cmd, c.verbose, RenderFlag(Verbose));
    var cmd2 := AppendIf(cmd1, c.checkMode, RenderFlag(Check));
    var cmd3 := AppendIf(cmd2, c.diff, RenderFlag(Diff));
    var cmd4 := AppendIf(cmd3, c.step, RenderFlag(Step));
    var cmd5 := AppendIf(cmd4, c.syntaxCheck, RenderFlag(SyntaxCheck));
    var cmd6 := AppendIf(cmd5, c.listTasks, RenderFlag(ListTasks));
    var cmd7 := AppendIf(cmd6, c.listTags, RenderFlag(ListTags));
    assert cmd == cmd + RenderFlags([]);
    assert [] + l1 == l1;
    AppendIfIsOpt(cmd, [], c.verbose, Verbose);
    assert cmd1 == cmd + RenderFlags(l1);
    AppendIfIsOpt(cmd, l1, c.checkMode, Check);
    assert cmd2 == cmd + RenderFlags(l2);
    AppendIfIsOpt(cmd, l2, c.diff, Diff);
    assert cmd3 == cmd + RenderFlags(l3);
    AppendIfIsOpt(cmd, l3, c.step, Step);
    assert cmd4 == cmd + RenderFlags(l4);
    AppendIfIsOpt(cmd, l4, c.syntaxCheck, SyntaxCheck);
    assert cmd5 == cmd + RenderFlags(l5);
    AppendIfIsOpt(cmd, l5, c.listTasks, ListTasks);
    assert cmd6 == cmd + RenderFlags(l6);
    AppendIfIsOpt(cmd, l6, c.listTags, ListTags);
    assert cmd7 == cmd + RenderFlags(l7);
    assert WithToggles(c, cmd) == cmd7;
    assert ToggleFlags(c) == l7;
  }

  lemma TaskAndVarsFollowPlan(c: Config, cmd: string)
    ensures WithTaskAndVars(c, cmd) == cmd + RenderFlags(TaskAndVarsFlags(c))
  {
    var o1 := Opt(c.startAtTask != "", StartAtTask(c.startAtTask));
    assert cmd == cmd + RenderFlags([]);
    AppendIfIsOpt(cmd, [], c.startAtTask != "", StartAtTask(c.startAtTask));
    assert [] + o1 == o1;
    AppendIfIsOpt(cmd, o1, c.extraVarsRaw != "", ExtraVars(c.extraVarsRaw));
  }

  lemma AdvancedFollowsPlan(c: Config, cmd: string)
    ensures WithAdvancedFlags(c, cmd)
         == cmd + RenderFlags(OptionFlags(c) + ToggleFlags(c) + TaskAndVarsFlags(c))
  {
    var a := OptionFlags(c);
    var b := ToggleFlags(c);
    var d := TaskAndVarsFlags(c);
    var x1 := WithOptions(c, cmd);
    var x2 := WithToggles(c, x1);
    var x3 := WithTaskAndVars(c, x2);
    OptionsFollowPlan(c, cmd);
    TogglesFollowPlan(c, x1);
    TaskAndVarsFollowPlan(c, x2);
    RenderFlagsAppend(a, b);
    RenderFlagsAppend(a + b, d);
    var ra, rb, rd := RenderFlags(a), RenderFlags(b), RenderFlags(d);
    ConcatAssoc(cmd, ra, rb);
    ConcatAssoc(cmd, ra + rb, rd);
    assert x3 == cmd + RenderFlags(a + b + d);
  }

  lemma FilterStep(c: Config, fs: seq<Flag>, cond: bool)
    requires |fs| > 0 && Wanted(c, fs[0]) == cond
    ensures Filter(fs, WantedBy(c)) == Opt(cond, fs[0]) + Filter(fs[1..], WantedBy(c))
  {
  }

  lemma FilterTarget(c: Config)
    ensures Filter(TargetOrder(c), WantedBy(c)) == TargetFlags(c)
  {
    var fs := TargetOrder(c);
    var o1 := Opt(c.limit != "" && c.limit != "all", Limit(c.limit));
    var o2 := Opt(|c.tags| > 0, Tags(c.tags));
    var o3 := Opt(|c.skipTags| > 0, SkipTags(c.skipTags));
    FilterStep(c, fs[2..], |c.skipTags| > 0);
    assert fs[2..][1..] == [];
    FilterStep(c, fs[1..], |c.tags| > 0);
    assert fs[1..][1..] == fs[2..];
    FilterStep(c, fs, c.limit != "" && c.limit != "all");
    assert Filter(fs, WantedBy(c)) == o1 + (o2 + o3);
    AppendAssoc(o1, o2, o3);
  }

  lemma FilterOptions(c: Config)
    ensures Filter(OptionOrder(c), WantedBy(c)) == OptionFlags(c)
  {
    var fs := OptionOrder(c);
    var o1 := Opt(c.forks > 0, Forks(c.forks));
    var o2 := Opt(c.timeout > 0, Timeout(c.timeout));
    var o3 := Opt(c.remoteUser != "", RemoteUser(c.remoteUser));
    FilterStep(c, fs[2..], c.remoteUser != "");
    assert fs[2..][1..] == [];
    FilterStep(c, fs[1..], c.timeout > 0);
    assert fs[1..][1..] == fs[2..];
    FilterStep(c, fs, c.forks > 0);
    assert Filter(fs, WantedBy(c)) == o1 + (o2 + o3);
    AppendAssoc(o1, o2, o3);
  }

  lemma FilterTogglesHead(c: Config)
    ensures Filter(ToggleOrder[..3], WantedBy(c))
         == Opt(c.verbose, Verbose) + Opt(c.checkMode, Check) + Opt(c.diff, Diff)
  {
    var fs := [Verbose, Check, Diff];
    assert ToggleOrder[..3] == fs;
    var o1 := Opt(c.verbose, Verbose);
    var o2 := Opt(c.checkMode, Check);
    var o3 := Opt(c.diff, Diff);
    FilterStep(c, fs[2..], c.diff);
    assert fs[2..][1..] == [];
    FilterStep(c, fs[1..], c.checkMode);
    assert fs[1..][1..] == fs[2..];
    FilterStep(c, fs, c.verbose);
    assert Filter(fs, WantedBy(c)) == o1 + (o2 + o3);
    AppendAssoc(o1, o2, o3);
  }

  lemma FilterTogglesTail(c: Config)
    ensures Filter(ToggleOrder[3..], WantedBy(c))
         == Opt(c.step, Step) + Opt(c.syntaxCheck, SyntaxCheck) + Opt(c.listTasks, ListTasks)
            + Opt(c.listTags, ListTags)
  {
    var fs := [Step, SyntaxCheck, ListTasks, ListTags];
    assert ToggleOrder[3..] == fs;
    var o4 := Opt(c.step, Step);
    var o5 := Opt(c.syntaxCheck, SyntaxCheck);
    var o6 := Opt(c.listTasks, ListTasks);
    var o7 := Opt(c.listTags, ListTags);
    FilterStep(c, fs[3..], c.listTags);
    assert fs[3..][1..] == [];
    FilterStep(c, fs[2..], c.listTasks);
    assert fs[2..][1..] == fs[3..];
    FilterStep(c, fs[1..], c.syntaxCheck);
    assert fs[1..][1..] == fs[2..];
    FilterStep(c, fs, c.step);
    assert Filter(fs, WantedBy(c)) == o4 + (o5 + (o6 + o7));
    AppendAssoc(o5, o6, o7);
    AppendAssoc(o4, o5 + o6, o7);
    AppendAssoc(o4, o5, o6);
  }

  lemma FilterToggles(c: Config)
    ensures Filter(ToggleOrder, WantedBy(c)) == ToggleFlags(c)
  {
    var head := Opt(c.verbose, Verbose) + Opt(c.checkMode, Check) + Opt(c.diff, Diff);
    var o4 := Opt(c.step, Step);
    var o5 := Opt(c.syntaxCheck, SyntaxCheck);
    var o6 := Opt(c.listTasks, ListTasks);
    var o7 := Opt(c.listTags, ListTags);
    FilterTogglesHead(c);
    FilterTogglesTail(c);
    assert ToggleOrder == ToggleOrder[..3] + ToggleOrder[3..];
    FilterConcat(ToggleOrder[..3], ToggleOrder[3..], WantedBy(c));
    AppendAssoc(head, o4 + o5 + o6, o7);
    AppendAssoc(head, o4 + o5, o6);
    AppendAssoc(head, o4, o5);
  }

  lemma FilterTaskAndVars(c: Config)
    ensures Filter(TaskAndVarsOrder(c), WantedBy(c)) == TaskAndVarsFlags(c)
  {
    var fs := TaskAndVarsOrder(c);
    FilterStep(c, fs[1..], c.extraVarsRaw != "");
    assert fs[1..][1..] == [];
    FilterStep(c, fs, c.startAtTask != "");
  }

  /** Exactly one of the two vault flags is wanted, and it is the one the plan
      carries. */
  lemma FilterVault(c: Config)
    ensures Filter([VaultPasswordFile, AskVaultPass], WantedBy(c)) == [VaultFlag(PlanOf(c))]
  {
    var fs := [VaultPasswordFile, AskVaultPass];
    FilterStep(c, fs[1..], IsBlank(c.vaultPassword));
    assert fs[1..][1..] == [];
    FilterStep(c, fs, !IsBlank(c.vaultPassword));
  }

  /** `--become` is never wanted. */
  lemma FilterBecome(c: Config)
    ensures Filter([Become], WantedBy(c)) == []
  {
    var b := [Become];
    FilterStep(c, b, false);
    assert b[1..] == [];
  }

  lemma FilterLate(c: Config)
    ensures Filter(LateOrder(c), WantedBy(c)) == OptionFlags(c) + ToggleFlags(c) + TaskAndVarsFlags(c)
  {
    var w := WantedBy(c);
    var o, b, g, k := OptionOrder(c), [Become], ToggleOrder, TaskAndVarsOrder(c);
    var of, gf, kf := OptionFlags(c), ToggleFlags(c), TaskAndVarsFlags(c);
    FilterConcat(o, b, w);
    FilterOptions(c);
    FilterBecome(c);
    assert Filter(o + b, w) == of;
    FilterConcat(o + b, g, w);
    FilterToggles(c);
    FilterConcat(o + b + g, k, w);
    FilterTaskAndVars(c);
  }

  /** The target and tag flags the composer adds are the plan's early flags. */
  lemma EarlyFollowsPlan(c: Config)
    ensures TargetedInvocation(c) == Invocation(c.environment) + RenderFlags(PlanOf(c).early)
  {
    TargetedFollowsPlan(c);
    FilterTarget(c);
  }

  /** The flags the composer adds after the vault branch are the plan's late flags. */
  lemma LateFollowsPlan(c: Config, cmd: string)
    ensures WithAdvancedFlags(c, cmd) == cmd + RenderFlags(PlanOf(c).late)
  {
    AdvancedFollowsPlan(c, cmd);
    FilterLate(c);
  }

  /** The step-by-step composer builds exactly the planned command. */
  lemma ComposeFollowsPlan(c: Config)
    ensures Compose(c) == Render(PlanOf(c))
  {
    var p := PlanOf(c);
    var t := TargetedInvocation(c);
    var v := WithVault(c, t);
    var l := RenderFlags(p.late);
    var flag := RenderFlag(VaultFlag(p));
    TrimEmptyIff(c.vaultPassword);
    EarlyFollowsPlan(c);
    LateFollowsPlan(c, v);
    var stages := match p.password
      case Some(pw) => EchoStage(pw) + (Invocation(p.environment) + RenderFlags(p.early) + flag) + RmStage
      case None => Invocation(p.environment) + RenderFlags(p.early) + flag;
    if UsesPasswordFile(c) {
      ConcatAssoc(EchoStage(c.vaultPassword), t, flag);
    }
    assert v == stages;
    ConcatAssoc(HomeText(p.home), v, l);
    assert Render(p) == HomeText(p.home) + stages + l;
  }

  // ---------------------------------------------------------------------------
  // Which flags the command carries, and in which order.

  /** The plan's flags are the wanted ones, taken in the fixed flag order. */
  lemma PlanFlagsFollowOrder(c: Config)
    ensures AllFlags(PlanOf(c)) == Filter(FlagOrder(c), WantedBy(c))
  {
    var w := WantedBy(c);
    var t, v := TargetOrder(c), [VaultPasswordFile, AskVaultPass];
    FilterConcat(t, v, w);
    FilterConcat(t + v, LateOrder(c), w);
    FilterVault(c);
  }

  /** Wanted flags are flags of the fixed order. */
  lemma WantedIsOrdered(c: Config, f: Flag)
    requires Wanted(c, f)
    ensures f in FlagOrder(c)
  {
    var t, v, o, b, g, k :=
      TargetOrder(c), [VaultPasswordFile, AskVaultPass], OptionOrder(c), [Become],
      ToggleOrder, TaskAndVarsOrder(c);
    assert FlagOrder(c) == t + v + (o + b + g + k);
    match f
    case Limit(_) => assert f == t[0];
    case Tags(_) => assert f == t[1];
    case SkipTags(_) => assert f == t[2];
    case VaultPasswordFile => assert f == v[0];
    case AskVaultPass => assert f == v[1];
    case Forks(_) => assert f == o[0];
    case Timeout(_) => assert f == o[1];
    case RemoteUser(_) => assert f == o[2];
    case Verbose => assert f == g[0];
    case Check => assert f == g[1];
    case Diff => assert f == g[2];
    case Step => assert f == g[3];
    case SyntaxCheck => assert f == g[4];
    case ListTasks => assert f == g[5];
    case ListTags => assert f == g[6];
    case StartAtTask(_) => assert f == k[0];
    case ExtraVars(_) => assert f == k[1];
  }

  /** The command carries a flag exactly when the configuration calls for it,
      and its flags keep the fixed order (tags before skip-tags, the vault flag
      after them, switches after the numeric options, extra variables last). */
  lemma PlanFlagsExactlyWanted(c: Config)
    ensures forall f :: f in AllFlags(PlanOf(c)) <==> Wanted(c, f)
    ensures IsSubsequence(AllFlags(PlanOf(c)), FlagOrder(c))
  {
    PlanFlagsFollowOrder(c);
    FilterOrder(FlagOrder(c), WantedBy(c));
    forall f
      ensures f in AllFlags(PlanOf(c)) <==> Wanted(c, f)
    {
      FilterMembers(FlagOrder(c), WantedBy(c), f);
      if Wanted(c, f) {
        WantedIsOrdered(c, f);
      }
    }
  }

  // ---------------------------------------------------------------------------
  // What the command text holds.

  /** The text before the early flags: the optional `cd`, the optional `echo`
      stage and the playbook invocation. */
  function Head(p: Plan): string
  {
    HomeText(p.home) + (if p.password.Some? then EchoStage(p.password.value) else "")
    + Invocation(p.environment)
  }

  /** The text between the vault flag and the late flags. */
  function Tail(p: Plan): string
  {
    if p.password.Some? then RmStage else ""
  }

  lemma RegroupWithFile(h: string, echo: string, inv: string, e: string, f: string, rm: string, l: string)
    ensures h + (echo + (inv + e + f) + rm) + l == (h + echo + inv) + e + f + rm + l
  {
  }

  lemma RegroupWithoutFile(h: string, inv: string, e: string, f: string, l: string)
    ensures h + (inv + e + f) + l == (h + "" + inv) + e + f + "" + l
  {
  }

  lemma RegroupPieces(h: string, e: string, v: string, t: string, l: string)
    ensures h + e + v + t + l == h + e + (v + t + l)
    ensures h + e + v + t + l == h + e + v + (t + l)
    ensures h + e + v + t + l == h + e + v + t + l + ""
    ensures h + e + v + t + l == h + (e + v + t + l)
    ensures h + e + v + t + l == (h + e) + (v + t + l)
    ensures v + "" + l == v + l
  {
  }

  lemma RenderPieces(p: Plan)
    ensures Render(p)
         == Head(p) + RenderFlags(p.early) + RenderFlag(VaultFlag(p)) + Tail(p) + RenderFlags(p.late)
  {
    var e, f, l := RenderFlags(p.early), RenderFlag(VaultFlag(p)), RenderFlags(p.late);
    var inv := Invocation(p.environment);
    match p.password
    case Some(pw) =>
      RegroupWithFile(HomeText(p.home), EchoStage(pw), inv, e, f, RmStage, l);
    case None =>
      RegroupWithoutFile(HomeText(p.home), inv, e, f, l);
  }

  /** Every flag the configuration calls for appears, as rendered, in the command. */
  lemma ComposeCarriesWanted(c: Config, f: Flag)
    requires Wanted(c, f)
    ensures Contains(Compose(c), RenderFlag(f))
  {
    var p := PlanOf(c);
    var h, e, v, t, l := Head(p), RenderFlags(p.early), RenderFlag(VaultFlag(p)), Tail(p), RenderFlags(p.late);
    ComposeFollowsPlan(c);
    RenderPieces(p);
    RegroupPieces(h, e, v, t, l);
    PlanFlagsExactlyWanted(c);
    assert f in p.early + [VaultFlag(p)] + p.late;
    var needle := RenderFlag(f);
    if f in p.early {
      ConcatMapContains(p.early, RenderFlag, f);
      ContainsWithin(h, e, v + t + l, needle);
    } else if f == VaultFlag(p) {
      ContainsPiece(h + e, v, t + l);
    } else {
      assert f in p.late;
      ConcatMapContains(p.late, RenderFlag, f);
      ContainsWithin(h + e + v + t, l, "", needle);
    }
  }

  /** The password file is used exactly when the password holds a character
      that is not white space; the file then holds the password as typed. */
  lemma PasswordFileIffNotBlank(c: Config)
    ensures UsesPasswordFile(c) <==> !IsBlank(c.vaultPassword)
    ensures PlanOf(c).password == if IsBlank(c.vaultPassword) then None else Some(c.vaultPassword)
  {
    TrimEmptyIff(c.vaultPassword);
  }

  /** The command carries exactly one of the two vault flags. */
  lemma VaultFlagsExclusive(c: Config)
    ensures VaultPasswordFile in AllFlags(PlanOf(c)) <==> AskVaultPass !in AllFlags(PlanOf(c))
    ensures AskVaultPass in AllFlags(PlanOf(c)) <==> IsBlank(c.vaultPassword)
  {
    PlanFlagsExactlyWanted(c);
  }

  /** With a non-blank password, the command first writes the untrimmed password
      to `.vault_pass`, runs the playbook reading it, and deletes it; the flags
      added after the vault branch follow the `rm`. */
  lemma PasswordFileStages(c: Config)
    requires !IsBlank(c.vaultPassword)
    ensures StartsWith(Compose(c),
      HomeText(c.useMogendHome) + EchoStage(c.vaultPassword) + Invocation(c.environment))
    ensures EndsWith(Compose(c),
      RenderFlag(VaultPasswordFile) + RmStage + RenderFlags(PlanOf(c).late))
  {
    var p := PlanOf(c);
    ComposeFollowsPlan(c);
    RenderPieces(p);
    var h, e, v, t, l := Head(p), RenderFlags(p.early), RenderFlag(VaultFlag(p)), Tail(p), RenderFlags(p.late);
    RegroupPieces(h, e, v, t, l);
    StartsWithConcat(h, e + v + t + l);
    EndsWithConcat(h + e, v + t + l);
  }

  /** With a blank password, the playbook runs alone and asks for the password. */
  lemma AskPassStages(c: Config)
    requires IsBlank(c.vaultPassword)
    ensures StartsWith(Compose(c), HomeText(c.useMogendHome) + Invocation(c.environment))
    ensures EndsWith(Compose(c), RenderFlag(AskVaultPass) + RenderFlags(PlanOf(c).late))
  {
    var p := PlanOf(c);
    ComposeFollowsPlan(c);
    RenderPieces(p);
    var h, e, v, t, l := Head(p), RenderFlags(p.early), RenderFlag(VaultFlag(p)), Tail(p), RenderFlags(p.late);
    RegroupPieces(h, e, v, t, l);
    assert h == HomeText(c.useMogendHome) + Invocation(c.environment) by {
      assert h == HomeText(c.useMogendHome) + "" + Invocation(c.environment);
    }
    StartsWithConcat(h, e + v + t + l);
    EndsWithConcat(h + e, v + t + l);
  }

  /** `c` and `d` agree on every field the flags are computed from. */
  predicate SameFlagInputs(c: Config, d: Config)
  {
    && c.environment == d.environment && c.limit == d.limit && c.tags == d.tags
    && c.skipTags == d.skipTags && c.vaultPassword == d.vaultPassword && c.forks == d.forks
    && c.timeout == d.timeout && c.remoteUser == d.remoteUser && c.verbose == d.verbose
    && c.checkMode == d.checkMode && c.diff == d.diff && c.step == d.step
    && c.syntaxCheck == d.syntaxCheck && c.listTasks == d.listTasks && c.listTags == d.listTags
    && c.startAtTask == d.startAtTask && c.extraVarsRaw == d.extraVarsRaw
  }

  lemma WantedSameInputs(c: Config, d: Config)
    requires SameFlagInputs(c, d)
    ensures forall f :: WantedBy(c)(f) == WantedBy(d)(f)
  {
  }

  /** The plan depends on no other fields than these and the `cd` switch. */
  lemma PlanSameInputs(c: Config, d: Config)
    requires SameFlagInputs(c, d)
    ensures PlanOf(d) == PlanOf(c).(home := d.useMogendHome)
  {
    WantedSameInputs(c, d);
    FilterCongruent(TargetOrder(c), WantedBy(c), WantedBy(d));
    FilterCongruent(LateOrder(c), WantedBy(c), WantedBy(d));
  }

  lemma PrefixHome(home: bool, stages: string, l: string)
    ensures HomeText(home) + stages + l == HomeText(home) + (HomeText(false) + stages + l)
  {
    assert HomeText(false) + stages == stages;
  }

  lemma HomeStage(c: Config)
    ensures Compose(c) == HomeText(c.useMogendHome) + Compose(c.(useMogendHome := false))
  {
    var d := c.(useMogendHome := false);
    var p := PlanOf(c);
    ComposeFollowsPlan(c);
    ComposeFollowsPlan(d);
    PlanSameInputs(c, d);
    var playbook := Invocation(p.environment) + RenderFlags(p.early) + RenderFlag(VaultFlag(p));
    var stages := match p.password
      case Some(pw) => EchoStage(pw) + playbook + RmStage
      case None => playbook;
    PrefixHome(p.home, stages, RenderFlags(p.late));
  }

  /** Without the switch the command starts with `echo` or `ansible-playbook`. */
  lemma PlainStart(c: Config)
    requires !c.useMogendHome
    ensures |Compose(c)| > 0 && Compose(c)[0] in {'e', 'a'}
  {
    if IsBlank(c.vaultPassword) {
      AskPassStages(c);
      assert Compose(c)[0] == (HomeText(false) + Invocation(c.environment))[0];
    } else {
      PasswordFileStages(c);
      assert Compose(c)[0] == (HomeText(false) + EchoStage(c.vaultPassword) + Invocation(c.environment))[0];
    }
  }

  /** The `cd "$MOGEND_HOME"` line is prefixed exactly when the switch is on, to
      the command the configuration gives without it. */
  lemma HomePrefixIffSwitch(c: Config)
    ensures Compose(c) == HomeText(c.useMogendHome) + Compose(c.(useMogendHome := false))
    ensures StartsWith(Compose(c), HomePrefix) <==> c.useMogendHome
  {
    HomeStage(c);
    if c.useMogendHome {
      StartsWithConcat(HomePrefix, Compose(c.(useMogendHome := false)));
    } else {
      PlainStart(c);
      assert HomePrefix[0] == 'c';
    }
  }

  /** The command ignores the project, action, version, extra-variable map,
      phase and `become` fields. */
  lemma ComposeIgnoresUnreadFields(c: Config, project: string, action: Action, version: string,
                                   extraVars: map<string, string>, phase: string, become: bool)
    ensures Compose(c.(project := project, action := action, version := version,
                       extraVars := extraVars, phase := phase, become := become)) == Compose(c)
  {
    var d := c.(project := project, action := action, version := version,
                extraVars := extraVars, phase := phase, become := become);
    ComposeFollowsPlan(c);
    ComposeFollowsPlan(d);
    PlanSameInputs(c, d);
  }

  // ---------------------------------------------------------------------------
  // The `rm .vault_pass` stage.
  //
  // The composer wraps the command between `echo` and `rm` before it appends the
  // numeric, user, switch and free-text flags, so those land on the `rm`
  // command instead of the playbook. `ComposeIntended` places the vault flag and
  // every later flag on the playbook and deletes the file last.

  /** The as-written composer hands the first later flag to `rm`: with a
      password file and a positive fork count the text holds
      ` && rm .vault_pass -f <n>`. */
  lemma CleanupTakesLateFlags(c: Config)
    requires !IsBlank(c.vaultPassword) && c.forks > 0
    ensures Contains(Compose(c), RmStage + RenderFlag(Forks(c.forks)))
  {
    var rl := LateFlagsLeadWithForks(c);
    var vault, fl := RenderFlag(VaultPasswordFile), RenderFlag(Forks(c.forks));
    PasswordFileStages(c);
    ContainsAfterVault(Compose(c), vault, RmStage, fl, rl);
  }

  /** A text ending in the vault flag, `rm` and the late flags holds `rm`
      directly followed by the first late flag. */
  lemma ContainsAfterVault(s: string, vault: string, rm: string, fl: string, rl: string)
    requires EndsWith(s, vault + rm + (fl + rl))
    ensures Contains(s, rm + fl)
  {
    var suffix := vault + rm + (fl + rl);
    var before := s[..|s| - |suffix|];
    assert s == before + suffix;
    RegroupCleanup(before, vault, rm, fl, rl);
    ContainsPiece(before + vault, rm + fl, rl);
  }

  /** With a positive fork count, `-f` is the first flag after the vault branch. */
  lemma LateFlagsLeadWithForks(c: Config) returns (rest: string)
    requires c.forks > 0
    ensures RenderFlags(PlanOf(c).late) == RenderFlag(Forks(c.forks)) + rest
  {
    var forks := Forks(c.forks);
    FilterStep(c, LateOrder(c), true);
    var others := Filter(LateOrder(c)[1..], WantedBy(c));
    assert PlanOf(c).late == [forks] + others;
    RenderFlagsAppend([forks], others);
    RenderFlagsSnoc([], forks);
    assert [] + [forks] == [forks];
    rest := RenderFlags(others);
  }

  lemma RegroupCleanup(before: string, vault: string, rm: string, fl: string, rl: string)
    ensures before + (vault + rm + (fl + rl)) == before + vault + (rm + fl) + rl
  {
  }

  /** The command with every flag on the playbook and the password file
      deleted last. */
  function ComposeIntended(c: Config): string
  {
    var vaultFlag := if UsesPasswordFile(c) then VaultPasswordFile else AskVaultPass;
    var playbook := WithAdvancedFlags(c, TargetedInvocation(c) + RenderFlag(vaultFlag));
    WithHome(c, if UsesPasswordFile(c) then EchoStage(c.vaultPassword) + playbook + RmStage else playbook)
  }

  lemma RegroupIntended(h: string, echo: string, inv: string, a: string, rm: string)
    ensures h + (echo + (inv + a) + rm) == (h + echo + inv) + a + rm
    ensures h + (inv + a) == (h + "" + inv) + a + ""
  {
  }

  /** The intended playbook invocation carries all the plan's flags. */
  lemma IntendedPlaybook(c: Config)
    ensures WithAdvancedFlags(c, TargetedInvocation(c) + RenderFlag(VaultFlag(PlanOf(c))))
         == Invocation(c.environment) + RenderFlags(AllFlags(PlanOf(c)))
  {
    var p := PlanOf(c);
    var inv, e, f, l := Invocation(c.environment), RenderFlags(p.early), RenderFlag(VaultFlag(p)), RenderFlags(p.late);
    EarlyFollowsPlan(c);
    LateFollowsPlan(c, TargetedInvocation(c) + f);
    RenderFlagsSnoc(p.early, VaultFlag(p));
    RenderFlagsAppend(p.early + [VaultFlag(p)], p.late);
    RegroupPlaybook(inv, e, f, l);
  }

  lemma RegroupPlaybook(inv: string, e: string, f: string, l: string)
    ensures inv + e + f + l == inv + (e + f + l)
  {
  }

  /** The intended command is the invocation carrying all the plan's flags,
      between the optional `cd`/`echo` stages and the optional `rm`. */
  lemma IntendedFollowsPlan(c: Config)
    ensures ComposeIntended(c) == Head(PlanOf(c)) + RenderFlags(AllFlags(PlanOf(c))) + Tail(PlanOf(c))
  {
    var p := PlanOf(c);
    var pb := WithAdvancedFlags(c, TargetedInvocation(c) + RenderFlag(VaultFlag(p)));
    PasswordFileIffNotBlank(c);
    IntendedPlaybook(c);
    assert pb == Invocation(c.environment) + RenderFlags(AllFlags(p));
    if UsesPasswordFile(c) {
      IntendedWithFile(c, pb);
    } else {
      IntendedWithoutFile(c, pb);
    }
  }

  /** `IntendedFollowsPlan` when the password file is used. */
  lemma IntendedWithFile(c: Config, pb: string)
    requires UsesPasswordFile(c) && !IsBlank(c.vaultPassword)
    requires PlanOf(c).password == Some(c.vaultPassword)
    requires pb == WithAdvancedFlags(c, TargetedInvocation(c) + RenderFlag(VaultFlag(PlanOf(c))))
    requires pb == Invocation(c.environment) + RenderFlags(AllFlags(PlanOf(c)))
    ensures ComposeIntended(c) == Head(PlanOf(c)) + RenderFlags(AllFlags(PlanOf(c))) + Tail(PlanOf(c))
  {
    var p := PlanOf(c);
    assert ComposeIntended(c) == HomeText(p.home) + (EchoStage(c.vaultPassword) + pb + RmStage);
    RegroupIntended(HomeText(p.home), EchoStage(c.vaultPassword), Invocation(c.environment),
      RenderFlags(AllFlags(p)), RmStage);
  }

  /** `IntendedFollowsPlan` when the password is asked for. */
  lemma IntendedWithoutFile(c: Config, pb: string)
    requires !UsesPasswordFile(c) && IsBlank(c.vaultPassword)
    requires PlanOf(c).password == None
    requires pb == WithAdvancedFlags(c, TargetedInvocation(c) + RenderFlag(VaultFlag(PlanOf(c))))
    requires pb == Invocation(c.environment) + RenderFlags(AllFlags(PlanOf(c)))
    ensures ComposeIntended(c) == Head(PlanOf(c)) + RenderFlags(AllFlags(PlanOf(c))) + Tail(PlanOf(c))
  {
    var p := PlanOf(c);
    assert ComposeIntended(c) == HomeText(p.home) + pb;
    RegroupIntended(HomeText(p.home), "", Invocation(c.environment), RenderFlags(AllFlags(p)), "");
  }

  /** In the intended command the `rm` stage comes last, after every flag. */
  lemma IntendedCleansUpLast(c: Config)
    requires !IsBlank(c.vaultPassword)
    ensures StartsWith(ComposeIntended(c),
      HomeText(c.useMogendHome) + EchoStage(c.vaultPassword) + Invocation(c.environment))
    ensures EndsWith(ComposeIntended(c), RenderFlags(AllFlags(PlanOf(c))) + RmStage)
  {
    var p := PlanOf(c);
    IntendedFollowsPlan(c);
    var h, a := Head(p), RenderFlags(AllFlags(p));
    StartsWithConcat(h, a + RmStage);
    EndsWithConcat(h, a + RmStage);
    ConcatAssoc(h, a, RmStage);
  }

  lemma RegroupAgreement(h: string, e: string, v: string, t: string, l: string)
    requires t == "" || l == ""
    ensures h + (e + v + l) + t == h + e + v + t + l
  {
  }

  /** The two composers differ only in where the later flags go: without a
      password file, or with no later flag, they build the same command. */
  lemma IntendedAgreesWhenNothingFollows(c: Config)
    requires IsBlank(c.vaultPassword) || PlanOf(c).late == []
    ensures ComposeIntended(c) == Compose(c)
  {
    var p := PlanOf(c);
    IntendedFollowsPlan(c);
    ComposeFollowsPlan(c);
    RenderPieces(p);
    var h, e, v, t, l := Head(p), RenderFlags(p.early), RenderFlag(VaultFlag(p)), Tail(p), RenderFlags(p.late);
    RenderFlagsSnoc(p.early, VaultFlag(p));
    RenderFlagsAppend(p.early + [VaultFlag(p)], p.late);
    RegroupAgreement(h, e, v, t, l);
  }
}
