/** The configuration record of the command builder (`CommandConfig` in
    types.ts) and the shallow merge `{ ...prev, ...updates }` that is the only
    way it changes.

    Optional fields are normalised: a field the record leaves undefined is held
    as its empty value ("" for text, 0 for numbers, false for switches), because
    every reader of the record treats undefined and the empty value alike. */
module Types {

  datatype Option<T> = None | Some(value: T)
  {
    function GetOr(default: T): T
    {
      match this
      case Some(v) => v
      case None => default
    }
  }

  datatype Action = Deploy | Restart | Stop | Rollback | Maintenance

  datatype Config = Config(
    project: string,
    environment: string,
    action: Action,
    version: string,
    verbose: bool,
    checkMode: bool,
    tags: seq<string>,
    skipTags: seq<string>,
    extraVars: map<string, string>,
    extraVarsRaw: string,
    limit: string,
    forks: int,
    diff: bool,
    remoteUser: string,
    become: bool,
    startAtTask: string,
    step: bool,
    syntaxCheck: bool,
    listTasks: bool,
    listTags: bool,
    timeout: int,
    vaultPassword: string,
    phase: string,
    useMogendHome: bool)

  /** `Partial<CommandConfig>`: the fields an update sets. */
  datatype Patch = Patch(
    project: Option<string>,
    environment: Option<string>,
    action: Option<Action>,
    version: Option<string>,
    verbose: Option<bool>,
    checkMode: Option<bool>,
    tags: Option<seq<string>>,
    skipTags: Option<seq<string>>,
    extraVars: Option<map<string, string>>,
    extraVarsRaw: Option<string>,
    limit: Option<string>,
    forks: Option<int>,
    diff: Option<bool>,
    remoteUser: Option<string>,
    become: Option<bool>,
    startAtTask: Option<string>,
    step: Option<bool>,
    syntaxCheck: Option<bool>,
    listTasks: Option<bool>,
    listTags: Option<bool>,
    timeout: Option<int>,
    vaultPassword: Option<string>,
    phase: Option<string>,
    useMogendHome: Option<bool>)

  /** The empty update `{}`. */
  const NoChange: Patch := Patch(
    None, None, None, None, None, None, None, None, None, None, None, None,
    None, None, None, None, None, None, None, None, None, None, None, None)

  /** `{ ...c, ...p }`: every field `p` sets is overwritten, the others are kept. */
  function Merge(c: Config, p: Patch): Config
  {
    Config(
      p.project.GetOr(c.project),
      p.environment.GetOr(c.environment),
      p.action.GetOr(c.action),
      p.version.GetOr(c.version),
      p.verbose.GetOr(c.verbose),
      p.checkMode.GetOr(c.checkMode),
      p.tags.GetOr(c.tags),
      p.skipTags.GetOr(c.skipTags),
      p.extraVars.GetOr(c.extraVars),
      p.extraVarsRaw.GetOr(c.extraVarsRaw),
      p.limit.GetOr(c.limit),
      p.forks.GetOr(c.forks),
      p.diff.GetOr(c.diff),
      p.remoteUser.GetOr(c.remoteUser),
      p.become.GetOr(c.become),
      p.startAtTask.GetOr(c.startAtTask),
      p.step.GetOr(c.step),
      p.syntaxCheck.GetOr(c.syntaxCheck),
      p.listTasks.GetOr(c.listTasks),
      p.listTags.GetOr(c.listTags),
      p.timeout.GetOr(c.timeout),
      p.vaultPassword.GetOr(c.vaultPassword),
      p.phase.GetOr(c.phase),
      p.useMogendHome.GetOr(c.useMogendHome))
  }

  function Later<T>(first: Option<T>, second: Option<T>): Option<T>
  {
    if second.Some? then second else first
  }

  /** `{ ...p, ...q }`: the single update equivalent to `p` followed by `q`. */
  function Then(p: Patch, q: Patch): Patch
  {
    Patch(
      Later(p.project, q.project),
      Later(p.environment, q.environment),
      Later(p.action, q.action),
      Later(p.version, q.version),
      Later(p.verbose, q.verbose),
      Later(p.checkMode, q.checkMode),
      Later(p.tags, q.tags),
      Later(p.skipTags, q.skipTags),
      Later(p.extraVars, q.extraVars),
      Later(p.extraVarsRaw, q.extraVarsRaw),
      Later(p.limit, q.limit),
      Later(p.forks, q.forks),
      Later(p.diff, q.diff),
      Later(p.remoteUser, q.remoteUser),
      Later(p.become, q.become),
      Later(p.startAtTask, q.startAtTask),
      Later(p.step, q.step),
      Later(p.syntaxCheck, q.syntaxCheck),
      Later(p.listTasks, q.listTasks),
      Later(p.listTags, q.listTags),
      Later(p.timeout, q.timeout),
      Later(p.vaultPassword, q.vaultPassword),
      Later(p.phase, q.phase),
      Later(p.useMogendHome, q.useMogendHome))
  }

  /** The empty update changes nothing. */
  lemma MergeNoChange(c: Config)
    ensures Merge(c, NoChange) == c
  {
  }

  lemma LaterGetOr<T>(first: Option<T>, second: Option<T>, default: T)
    ensures Later(first, second).GetOr(default) == second.GetOr(first.GetOr(default))
  {
  }

  lemma MergeThenFields1(c: Config, p: Patch, q: Patch)
    ensures Merge(Merge(c, p), q).project == Merge(c, Then(p, q)).project
    ensures Merge(Merge(c, p), q).environment == Merge(c, Then(p, q)).environment
    ensures Merge(Merge(c, p), q).action == Merge(c, Then(p, q)).action
    ensures Merge(Merge(c, p), q).version == Merge(c, Then(p, q)).version
    ensures Merge(Merge(c, p), q).verbose == Merge(c, Then(p, q)).verbose
    ensures Merge(Merge(c, p), q).checkMode == Merge(c, Then(p, q)).checkMode
  {
    LaterGetOr(p.project, q.project, c.project);
    LaterGetOr(p.environment, q.environment, c.environment);
    LaterGetOr(p.action, q.action, c.action);
    LaterGetOr(p.version, q.version, c.version);
    LaterGetOr(p.verbose, q.verbose, c.verbose);
    LaterGetOr(p.checkMode, q.checkMode, c.checkMode);
  }

  lemma MergeThenFields2(c: Config, p: Patch, q: Patch)
    ensures Merge(Merge(c, p), q).tags == Merge(c, Then(p, q)).tags
    ensures Merge(Merge(c, p), q).skipTags == Merge(c, Then(p, q)).skipTags
    ensures Merge(Merge(c, p), q).extraVars == Merge(c, Then(p, q)).extraVars
    ensures Merge(Merge(c, p), q).extraVarsRaw == Merge(c, Then(p, q)).extraVarsRaw
    ensures Merge(Merge(c, p), q).limit == Merge(c, Then(p, q)).limit
    ensures Merge(Merge(c, p), q).forks == Merge(c, Then(p, q)).forks
  {
    LaterGetOr(p.tags, q.tags, c.tags);
    LaterGetOr(p.skipTags, q.skipTags, c.skipTags);
    LaterGetOr(p.extraVars, q.extraVars, c.extraVars);
    LaterGetOr(p.extraVarsRaw, q.extraVarsRaw, c.extraVarsRaw);
    LaterGetOr(p.limit, q.limit, c.limit);
    LaterGetOr(p.forks, q.forks, c.forks);
  }

  lemma MergeThenFields3(c: Config, p: Patch, q: Patch)
    ensures Merge(Merge(c, p), q).diff == Merge(c, Then(p, q)).diff
    ensures Merge(Merge(c, p), q).remoteUser == Merge(c, Then(p, q)).remoteUser
    ensures Merge(Merge(c, p), q).become == Merge(c, Then(p, q)).become
    ensures Merge(Merge(c, p), q).startAtTask == Merge(c, Then(p, q)).startAtTask
    ensures Merge(Merge(c, p), q).step == Merge(c, Then(p, q)).step
    ensures Merge(Merge(c, p), q).syntaxCheck == Merge(c, Then(p, q)).syntaxCheck
  {
    LaterGetOr(p.diff, q.diff, c.diff);
    LaterGetOr(p.remoteUser, q.remoteUser, c.remoteUser);
    LaterGetOr(p.become, q.become, c.become);
    LaterGetOr(p.startAtTask, q.startAtTask, c.startAtTask);
    LaterGetOr(p.step, q.step, c.step);
    LaterGetOr(p.syntaxCheck, q.syntaxCheck, c.syntaxCheck);
  }

  lemma MergeThenFields4(c: Config, p: Patch, q: Patch)
    ensures Merge(Merge(c, p), q).listTasks == Merge(c, Then(p, q)).listTasks
    ensures Merge(Merge(c, p), q).listTags == Merge(c, Then(p, q)).listTags
    ensures Merge(Merge(c, p), q).timeout == Merge(c, Then(p, q)).timeout
    ensures Merge(Merge(c, p), q).vaultPassword == Merge(c, Then(p, q)).vaultPassword
    ensures Merge(Merge(c, p), q).phase == Merge(c, Then(p, q)).phase
    ensures Merge(Merge(c, p), q).useMogendHome == Merge(c, Then(p, q)).useMogendHome
  {
    LaterGetOr(p.listTasks, q.listTasks, c.listTasks);
    LaterGetOr(p.listTags, q.listTags, c.listTags);
    LaterGetOr(p.timeout, q.timeout, c.timeout);
    LaterGetOr(p.vaultPassword, q.vaultPassword, c.vaultPassword);
    LaterGetOr(p.phase, q.phase, c.phase);
    LaterGetOr(p.useMogendHome, q.useMogendHome, c.useMogendHome);
  }

  /** Two successive updates are one update with the later values winning. */
  lemma MergeThen(c: Config, p: Patch, q: Patch)
    ensures Merge(Merge(c, p), q) == Merge(c, Then(p, q))
  {
    MergeThenFields1(c, p, q);
    MergeThenFields2(c, p, q);
    MergeThenFields3(c, p, q);
    MergeThenFields4(c, p, q);
  }

  /** Re-applying the same update is harmless. */
  lemma MergeIdempotent(c: Config, p: Patch)
    ensures Merge(Merge(c, p), p) == Merge(c, p)
  {
  }

  /** An update that sets a single field is the record with that field replaced. */
  lemma MergeSingleField(c: Config, limit: string, tags: seq<string>, phase: string)
    ensures Merge(c, NoChange.(limit := Some(limit))) == c.(limit := limit)
    ensures Merge(c, NoChange.(tags := Some(tags), phase := Some(phase))) == c.(tags := tags, phase := phase)
  {
  }
}
