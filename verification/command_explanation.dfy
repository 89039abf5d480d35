/** The view model of components/CommandExplanationModal.tsx: the tags of the
    configuration with their descriptions, their four pipeline categories, the
    technical sheet, the option badges and the production warning.

    Colours, icons and layout are presentation and are not kept. */
module Explanation {
  import opened Types
  import opened Text
  import opened Seqs
  import opened Constants
  import opened CommandDisplay
  import opened App

  datatype TagInfo = TagInfo(id: string, description: string)

  /** An entry of a tag table as the lookup reads it: its `id` and its
      `description`, each possibly undefined. */
  datatype Entry = Entry(id: Option<string>, description: string)

  /** The description given to a tag the table does not describe. */
  const NoDescription: string := "Tag système ou personnalisé sans description enregistrée."

  /** A table of plain strings as the lookup reads it: a string has neither an
      `id` nor a `description` property. */
  function AsEntries(strings: seq<string>): (r: seq<Entry>)
    ensures |r| == |strings|
  {
    if |strings| == 0 then [] else [Entry(None, "")] + AsEntries(strings[1..])
  }

  lemma {:induction false} AsEntriesHaveNoId(strings: seq<string>)
    ensures forall e :: e in AsEntries(strings) ==> e.id == None
  {
    if |strings| > 0 {
      AsEntriesHaveNoId(strings[1..]);
    }
  }

  /** `table.find(t => t.id === tagId)`. */
  function FindTag(table: seq<Entry>, tagId: string): (r: Option<Entry>)
    ensures r.Some? ==> r.value in table && r.value.id == Some(tagId)
    ensures r.Some? ==> exists i :: 0 <= i < |table| && table[i] == r.value
                          && forall j :: 0 <= j < i ==> table[j].id != Some(tagId)
    ensures r.None? ==> forall e :: e in table ==> e.id != Some(tagId)
  {
    if |table| == 0 then None
    else if table[0].id == Some(tagId) then Some(table[0])
    else
      var rest := FindTag(table[1..], tagId);
      assert forall i :: 1 <= i < |table| ==> table[i] == table[1..][i - 1];
      rest
  }

  /** One entry of `selectedTagsInfo`: the table entry found for the tag, or the
      tag with the fallback description. */
  function DescribeTag(table: seq<Entry>, tagId: string): (r: TagInfo)
    ensures r.id == tagId
    ensures (exists e :: e in table && e.id == Some(tagId)) || r.description == NoDescription
    ensures FindTag(table, tagId).Some? ==> r.description == FindTag(table, tagId).value.description
  {
    match FindTag(table, tagId)
    case Some(e) => TagInfo(e.id.value, e.description)
    case None => TagInfo(tagId, NoDescription)
  }

  /** `selectedTagsInfo`: one described entry per configured tag, in order. */
  function SelectedTagsInfo(table: seq<Entry>, tags: seq<string>): (r: seq<TagInfo>)
    ensures |r| == |tags|
    ensures forall i :: 0 <= i < |r| ==> r[i].id == tags[i]
  {
    seq(|tags|, i requires 0 <= i < |tags| => DescribeTag(table, tags[i]))
  }

  /** The entries of the page: the tags described against `SPECIFIC_TAGS`. */
  function PageTagsInfo(tags: seq<string>): (r: seq<TagInfo>)
    ensures |r| == |tags|
  {
    SelectedTagsInfo(AsEntries(SpecificTags), tags)
  }

  function Ids(infos: seq<TagInfo>): (r: seq<string>)
    ensures |r| == |infos|
  {
    seq(|infos|, i requires 0 <= i < |infos| => infos[i].id)
  }

  /** The entries name the configured tags, one for one and in order. */
  lemma SelectedTagsRoundTrip(table: seq<Entry>, tags: seq<string>)
    ensures Ids(SelectedTagsInfo(table, tags)) == tags
  {
  }

  /** Against a table without ids, every tag gets the fallback description. */
  lemma UndescribedWithoutIds(table: seq<Entry>, tags: seq<string>)
    requires forall e :: e in table ==> e.id == None
    ensures forall i :: 0 <= i < |tags| ==> SelectedTagsInfo(table, tags)[i] == TagInfo(tags[i], NoDescription)
  {
  }

  /** No entry of `SPECIFIC_TAGS` has an `id`, so every tag of the page gets
      the fallback description. */
  lemma PageTagsUndescribed(tags: seq<string>)
    ensures forall i :: 0 <= i < |tags| ==> PageTagsInfo(tags)[i] == TagInfo(tags[i], NoDescription)
  {
    AsEntriesHaveNoId(SpecificTags);
    UndescribedWithoutIds(AsEntries(SpecificTags), tags);
  }

  /** The "no tag selected" notice (CommandExplanationModal.tsx:143). */
  predicate ShowsNoTagNotice(tags: seq<string>)
  {
    |PageTagsInfo(tags)| == 0
  }

  lemma NoTagNoticeIffNoTags(tags: seq<string>)
    ensures ShowsNoTagNotice(tags) <==> tags == []
  {
  }

  // ---------------------------------------------------------------------------
  // The four pipeline categories.

  datatype Category = Prep | Core | Sec | Post

  const PrepIds: seq<string> := ["copie", "bootstrap", "verif", "ssh", "finger", "java_env"]
  const CoreIds: seq<string> := ["solr", "mcf", "lancement"]
  const SecIds: seq<string> := ["nftables", "replace_certs", "verif_certilibre"]
  const PostIds: seq<string> := ["logs", "fetch_log", "monitor_script", "phase_post"]

  /** The test each category applies to a tag id. */
  predicate InCategory(cat: Category, id: string)
  {
    match cat
    case Prep => id in PrepIds
    case Core => StartsWith(id, "phase_") || id in CoreIds
    case Sec => id in SecIds
    case Post => id in PostIds
  }

  function MemberOf(cat: Category): TagInfo -> bool
  {
    (t: TagInfo) => InCategory(cat, t.id)
  }

  /** `categories[cat]`: the entries of `infos` the category keeps. */
  function CategoryItems(infos: seq<TagInfo>, cat: Category): (r: seq<TagInfo>)
    ensures |r| <= |infos|
  {
    Filter(infos, MemberOf(cat))
  }

  /** A category keeps exactly the entries that pass its test, as many times
      as they occur, in their original order. */
  lemma CategoryKeepsItsTags(infos: seq<TagInfo>, cat: Category, t: TagInfo)
    ensures t in CategoryItems(infos, cat) <==> t in infos && InCategory(cat, t.id)
    ensures InCategory(cat, t.id) ==> multiset(CategoryItems(infos, cat))[t] == multiset(infos)[t]
    ensures IsSubsequence(CategoryItems(infos, cat), infos)
  {
    FilterMembers(infos, MemberOf(cat), t);
    FilterCounts(infos, MemberOf(cat), t);
    FilterOrder(infos, MemberOf(cat));
  }

  /** On the configured tags: a tag is listed under a category iff it is
      configured and passes the category's test. */
  lemma CategoryOfConfiguredTags(tags: seq<string>, cat: Category, id: string)
    ensures TagInfo(id, NoDescription) in CategoryItems(PageTagsInfo(tags), cat)
        <==> id in tags && InCategory(cat, id)
  {
    var infos := PageTagsInfo(tags);
    PageTagsUndescribed(tags);
    CategoryKeepsItsTags(infos, cat, TagInfo(id, NoDescription));
    if id in tags {
      var i :| 0 <= i < |tags| && tags[i] == id;
      assert infos[i] == TagInfo(id, NoDescription);
    }
  }

  lemma PhasePostTests()
    ensures InCategory(Core, "phase_post") && InCategory(Post, "phase_post")
  {
    assert StartsWith("phase_post", "phase_");
    assert PostIds[3] == "phase_post";
  }

  /** `phase_post` is listed twice: under Core and under Post. */
  lemma PhasePostInTwoCategories(tags: seq<string>)
    requires "phase_post" in tags
    ensures TagInfo("phase_post", NoDescription) in CategoryItems(PageTagsInfo(tags), Core)
    ensures TagInfo("phase_post", NoDescription) in CategoryItems(PageTagsInfo(tags), Post)
  {
    PhasePostTests();
    CategoryOfConfiguredTags(tags, Core, "phase_post");
    CategoryOfConfiguredTags(tags, Post, "phase_post");
  }

  lemma UninstallTests(cat: Category)
    ensures !InCategory(cat, "uninstall")
  {
    assert !StartsWith("uninstall", "phase_") by {
      assert "uninstall"[0] != "phase_"[0];
    }
  }

  /** A tag outside every list, such as `uninstall`, is in no category: with
      only such a tag selected the pipeline is blank and the "no tag" notice
      is not shown either. */
  lemma UninstallIsNowhere(cat: Category)
    ensures CategoryItems(PageTagsInfo(["uninstall"]), cat) == []
    ensures !ShowsNoTagNotice(["uninstall"])
  {
    UninstallTests(cat);
    CategoryOfConfiguredTags(["uninstall"], cat, "uninstall");
    PageTagsUndescribed(["uninstall"]);
  }

  /** Every tag the full pipeline selects is listed in at least one category. */
  lemma PipelineTagsAreCategorised()
    ensures forall id :: id in FullPipelineTags ==> exists cat :: InCategory(cat, id)
  {
    forall id | id in FullPipelineTags
      ensures exists cat :: InCategory(cat, id)
    {
      if id in PrepIds {
        assert InCategory(Prep, id);
      } else if id in PostIds {
        assert InCategory(Post, id);
      } else if id in SecIds {
        assert InCategory(Sec, id);
      } else if id in CoreIds {
        assert InCategory(Core, id);
      } else {
        assert id[..6] == "phase_";
        assert InCategory(Core, id);
      }
    }
  }

  // ---------------------------------------------------------------------------
  // The synthesis cells, the technical sheet, the badges and the warning.

  /** `currentEnv?.label`: the caption of the environment, if it is one of the
      table's. */
  function EnvironmentCaption(envs: seq<EnvironmentOption>, env: string): (r: Option<string>)
    ensures r.None? <==> forall i :: 0 <= i < |envs| ==> envs[i].value != env
    ensures r.Some? ==> exists i :: 0 <= i < |envs| && envs[i].value == env && envs[i].caption == r.value
                          && forall j :: 0 <= j < i ==> envs[j].value != env
  {
    if |envs| == 0 then None
    else if envs[0].value == env then Some(envs[0].caption)
    else
      var rest := EnvironmentCaption(envs[1..], env);
      assert forall i :: 1 <= i < |envs| ==> envs[i] == envs[1..][i - 1];
      rest
  }

  /** The "Target Limit" cell: `config.limit || 'all'`. */
  function TargetLimit(c: Config): (r: string)
    ensures r != ""
    ensures c.limit != "" ==> r == c.limit
  {
    if c.limit == "" then "all" else c.limit
  }

  /** The limit cell shows `all` exactly when the command carries no `-l`. */
  lemma TargetLimitMatchesCommand(c: Config)
    ensures TargetLimit(c) == "all" <==> Limit(c.limit) !in AllFlags(PlanOf(c))
  {
    PlanFlagsExactlyWanted(c);
  }

  /** The technical sheet (CommandExplanationModal.tsx:162-168), values only. */
  datatype Sheet = Sheet(
    inventory: string,
    mode: string,
    secrets: string,
    sshStrategy: string,
    remoteUser: string,
    timeout: string)

  const Simulation: string := "Simulation (--check)"
  const DirectRun: string := "Application directe"
  const PasswordFileLabel: string := "Vault Pass File"
  const PromptLabel: string := "Ask-Pass (Prompt)"
  const SystemDefault: string := "System Default"
  const DefaultTimeout: string := "Défaut"

  /** `${config.timeout}s`, or `Défaut`. */
  function TimeoutLabel(timeout: int): (r: string)
    ensures timeout > 0 ==> |r| >= 2 && r[|r| - 1] == 's'
  {
    if timeout > 0 then NumberText(timeout) + "s" else DefaultTimeout
  }

  function TechnicalSheet(c: Config): (r: Sheet)
    ensures r.inventory == "inventories/" + c.environment + "/"
    ensures r.mode == Simulation <==> c.checkMode
    ensures !c.checkMode ==> r.mode == DirectRun
    ensures r.secrets == PasswordFileLabel <==> c.vaultPassword != ""
    ensures c.vaultPassword == "" ==> r.secrets == PromptLabel
    ensures r.sshStrategy == "Linear / Pipelining"
    ensures c.remoteUser != "" ==> r.remoteUser == c.remoteUser
    ensures c.remoteUser == "" ==> r.remoteUser == SystemDefault
    ensures r.timeout == TimeoutLabel(c.timeout)
  {
    Sheet(
      "inventories/" + c.environment + "/",
      if c.checkMode then Simulation else DirectRun,
      if c.vaultPassword != "" then PasswordFileLabel else PromptLabel,
      "Linear / Pipelining",
      if c.remoteUser != "" then c.remoteUser else SystemDefault,
      TimeoutLabel(c.timeout))
  }

  /** The timeout label reads back as the timeout: the digits before the `s`
      are the number, and `Défaut` is shown exactly when no timeout is set. */
  lemma TimeoutLabelRoundTrip(timeout: int)
    ensures timeout > 0 ==> ParseNat(TimeoutLabel(timeout)[..|TimeoutLabel(timeout)| - 1]) == timeout
    ensures TimeoutLabel(timeout) == DefaultTimeout <==> timeout <= 0
  {
    if timeout > 0 {
      var digits := NatToString(timeout);
      assert TimeoutLabel(timeout)[..|TimeoutLabel(timeout)| - 1] == digits;
      ParseNatToString(timeout);
      assert digits != DefaultTimeout by {
        assert IsDigit(digits[0]);
      }
      assert TimeoutLabel(timeout)[|digits|] == 's';
      assert TimeoutLabel(timeout) != DefaultTimeout by {
        assert |DefaultTimeout| == 6;
        if |digits| + 1 == 6 {
          assert TimeoutLabel(timeout)[0] == digits[0];
          assert IsDigit(digits[0]);
        }
      }
    }
  }

  /** The sheet agrees with the command on the mode, the user and the timeout. */
  lemma SheetMatchesCommand(c: Config)
    ensures TechnicalSheet(c).mode == Simulation <==> Check in AllFlags(PlanOf(c))
    ensures TechnicalSheet(c).remoteUser == c.remoteUser <==> RemoteUser(c.remoteUser) in AllFlags(PlanOf(c))
    ensures TechnicalSheet(c).timeout != DefaultTimeout <==> Timeout(c.timeout) in AllFlags(PlanOf(c))
  {
    PlanFlagsExactlyWanted(c);
    TimeoutLabelRoundTrip(c.timeout);
    if c.remoteUser == "" {
      assert TechnicalSheet(c).remoteUser == SystemDefault;
    }
  }

  /** The secrets cell tests the password untrimmed, while the command trims it:
      a password of spaces shows `Vault Pass File` while the command asks for
      the password. Otherwise the two agree. */
  lemma SecretsLabelVersusCommand(c: Config)
    ensures c.vaultPassword != "" && IsBlank(c.vaultPassword) ==>
              TechnicalSheet(c).secrets == PasswordFileLabel && AskVaultPass in AllFlags(PlanOf(c))
    ensures c.vaultPassword == "" || !IsBlank(c.vaultPassword) ==>
              (TechnicalSheet(c).secrets == PasswordFileLabel <==> VaultPasswordFile in AllFlags(PlanOf(c)))
  {
    VaultFlagsExclusive(c);
    PlanFlagsExactlyWanted(c);
  }

  /** The secrets cell with the composer's test. */
  function SecretsLabelIntended(c: Config): (r: string)
    ensures r == PasswordFileLabel || r == PromptLabel
  {
    if IsBlank(c.vaultPassword) then PromptLabel else PasswordFileLabel
  }

  lemma SecretsIntendedMatchesCommand(c: Config)
    ensures SecretsLabelIntended(c) == PasswordFileLabel <==> VaultPasswordFile in AllFlags(PlanOf(c))
    ensures SecretsLabelIntended(c) == PromptLabel <==> AskVaultPass in AllFlags(PlanOf(c))
    ensures c.vaultPassword == "" || !IsBlank(c.vaultPassword) ==>
              SecretsLabelIntended(c) == TechnicalSheet(c).secrets
  {
    VaultFlagsExclusive(c);
    PlanFlagsExactlyWanted(c);
  }

  /** A password made of one space is the smallest input on which the two
      tests differ. */
  lemma BlankPasswordShowsFile(c: Config)
    requires c.vaultPassword == " "
    ensures TechnicalSheet(c).secrets == PasswordFileLabel
    ensures SecretsLabelIntended(c) == PromptLabel
  {
  }

  /** The production warning (CommandExplanationModal.tsx:190). */
  predicate ShowsProdWarning(c: Config)
  {
    c.environment == "prod" && !c.checkMode
  }

  /** The warning is shown exactly for a production command without `--check`. */
  lemma ProdWarningMatchesCommand(c: Config)
    ensures ShowsProdWarning(c) <==>
              Invocation(c.environment) == Invocation("prod") && Check !in AllFlags(PlanOf(c))
  {
    PlanFlagsExactlyWanted(c);
    if Invocation(c.environment) == Invocation("prod") {
      InventoryInjective(c.environment, "prod");
    }
  }

  lemma InventoryInjective(a: string, b: string)
    requires Invocation(a) == Invocation(b)
    ensures a == b
  {
    var pre := "ansible-playbook " + Playbook + " -i inventories/";
    var post := "/inventory.ini";
    assert Invocation(a) == pre + a + post;
    assert Invocation(b) == pre + b + post;
    assert |a| == |b|;
    assert a == Invocation(a)[|pre|..|pre| + |a|];
    assert b == Invocation(b)[|pre|..|pre| + |b|];
  }

  /** The option badges (CommandExplanationModal.tsx:181-185). `BareNumber` is
      the text React renders for a falsy number in `{n && ...}`. */
  datatype Badge = TagCount(n: nat) | HomeContext | VerboseLogging | DiffMode | ForkCount(forks: int) | BareNumber(value: int)

  function SwitchBadges(c: Config): (r: seq<Badge>)
    ensures |r| >= 1 && r[0] == TagCount(|c.tags|)
  {
    [TagCount(|c.tags|)]
    + (if c.useMogendHome then [HomeContext] else [])
    + (if c.verbose then [VerboseLogging] else [])
    + (if c.diff then [DiffMode] else [])
  }

  /** The badges as the markup renders them: `{config.forks && config.forks > 0 && …}`
      renders the number itself when it is `0`. */
  function Badges(c: Config): (r: seq<Badge>)
    ensures |r| >= 1 && r[0] == TagCount(|c.tags|)
    ensures BareNumber(0) in r <==> c.forks == 0
  {
    SwitchBadges(c) + (if c.forks == 0 then [BareNumber(0)] else if c.forks > 0 then [ForkCount(c.forks)] else [])
  }

  /** With no fork count the row ends in a stray `0`, as on the page's initial
      record. */
  lemma ZeroForksShowStrayZero(c: Config)
    requires c.forks == 0
    ensures Badges(c)[|Badges(c)| - 1] == BareNumber(0)
  {
  }

  /** The badges with a forks badge only for a positive count. */
  function BadgesIntended(c: Config): (r: seq<Badge>)
    ensures forall b :: b in r ==> !b.BareNumber?
  {
    SwitchBadges(c) + (if c.forks > 0 then [ForkCount(c.forks)] else [])
  }

  /** The intended row differs from the rendered one only by the stray `0`, and
      shows a forks badge exactly when the command carries `-f`. */
  lemma BadgesIntendedMatchCommand(c: Config)
    ensures c.forks != 0 ==> BadgesIntended(c) == Badges(c)
    ensures c.forks == 0 ==> BadgesIntended(c) + [BareNumber(0)] == Badges(c)
    ensures ForkCount(c.forks) in BadgesIntended(c) <==> Forks(c.forks) in AllFlags(PlanOf(c))
    ensures HomeContext in BadgesIntended(c) <==> c.useMogendHome
    ensures VerboseLogging in BadgesIntended(c) <==> Verbose in AllFlags(PlanOf(c))
    ensures DiffMode in BadgesIntended(c) <==> Diff in AllFlags(PlanOf(c))
  {
    PlanFlagsExactlyWanted(c);
  }
}
