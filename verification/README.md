# Ansible command configurator: a Dafny model

This project models the logic of a browser configurator that builds an
`ansible-playbook` command line for deploying the MORICE/Datafari stack to the
qual, preprod and prod environments. The operator picks options in a form, and
the page renders the command for copy-paste.

The model covers four pieces:

- **Command composer.** `generateCommand` in `components/CommandDisplay.tsx`.
  It turns a configuration record into the shell command.
  - `CommandDisplay.Compose` follows the source one `if` at a time.
  - `CommandDisplay.PlanOf` and `CommandDisplay.Render` describe the same
    command declaratively. `PlanOf` gives the list of wanted flags in their
    fixed order, plus the `cd`, `echo` and `rm` stages around them.
  - `ComposeFollowsPlan` proves the two descriptions equal for every record.
- **Configuration record and updates.** `Types.Config` and `Types.Merge`.
  `Merge` is the shallow merge `{ ...prev, ...updates }`, the only way the
  record changes.
- **Page state machine and execution summary.** Module `App`, for `App.tsx`:
  the initial record, the handlers for phases, tags, limit and the other
  controls, and the summary cells.
- **Two view models.**
  - Module `Explanation`, for `components/CommandExplanationModal.tsx`: tag
    descriptions, the four pipeline categories, the technical sheet, the badges
    and the production warning.
  - Module `Maintenance`, for `components/MaintenanceScriptsModal.tsx`: the
    case-insensitive script catalogue search.

Supporting modules:

- `Text`: `join`, `includes`, ASCII `toLowerCase`, `trim`, decimal rendering.
- `Seqs`: `filter`, removal by index, sub-sequences.
- `Constants`: the tables of `constants.tsx`.

How the record is represented:

- Optional fields of the record are held as their empty values: `""`, `0` or
  `false`. Every reader of the record treats an undefined field and its empty
  value alike.
- The one exception is the forks badge (`{config.forks && …}`). It renders
  nothing for an undefined value and a `0` for zero. The page never holds an
  undefined forks value: `INITIAL_CONFIG` sets 0, and the input stores
  `parseInt(...) || 0`.

Where the code and the design description disagree, the model follows the code:

- `--become` is never emitted, although the record has a `become` field.
- The cleanup stage is ` && rm .vault_pass`, without `-f`. It is appended
  before the later flags, so with a password file those flags land on `rm`
  (finding F2).
- The vault test trims the password, but the `echo` embeds the untrimmed
  value.
- There is no "custom tags" phase that clears the tags. Every phase other than
  the two aggregate phases selects `[phase]`.
- Toggling a tag always sets the phase to `custom`, including from an
  aggregate phase. It reads the tag list of the current record.
- The limit is replaced wholesale by the group buttons and the text box. Group
  choices do not accumulate into a comma-separated list, and "all" is not
  restored as a fallback.
- `INITIAL_CONFIG` leaves `useMogendHome` unset, so the initial command has no
  `cd` prefix.
- The stages are joined with ` && `, not with a line break. The only line
  break is the one after the `cd "$MOGEND_HOME" && \` prefix.

## Model

| member | source | states |
|---|---|---|
| Types.MergeThen | App.tsx:103-105 | Two successive updates equal one update in which the later value of each field wins |
| Types.MergeIdempotent | App.tsx:103-105 | Applying the same partial update twice is the same as applying it once |
| Types.MergeNoChange | App.tsx:103-105 | The empty update `{}` leaves the record unchanged |
| Types.MergeSingleField | App.tsx:103-105 | An update that sets only the limit (or only the tags and phase) changes exactly those fields and nothing else |
| CommandDisplay.ComposeFollowsPlan | components/CommandDisplay.tsx:14-78 | The command equals the rendering of its plan: optional `cd` line, then optional `echo` stage, then the invocation with the early flags and the vault flag, then optional `rm` stage, then the late flags |
| CommandDisplay.TargetedFollowsPlan | components/CommandDisplay.tsx:16-33 | The invocation with limit, tags and skip-tags is the fixed invocation followed by the wanted target flags in order |
| CommandDisplay.AdvancedFollowsPlan | components/CommandDisplay.tsx:43-70 | The advanced section appends, to whatever the command is at that point, the wanted option, switch and free-text flags in their fixed order |
| CommandDisplay.OptionsFollowPlan | components/CommandDisplay.tsx:43-53 | `-f`, `--timeout`, `-u` are appended in that order, each exactly when its condition holds |
| CommandDisplay.TogglesFollowPlan | components/CommandDisplay.tsx:56-62 | The seven switches are appended in source order, each exactly when true |
| CommandDisplay.TaskAndVarsFollowPlan | components/CommandDisplay.tsx:64-70 | `--start-at-task` and `-e` are appended in that order, each only when its text is non-empty |
| CommandDisplay.PlanFlagsFollowOrder | components/CommandDisplay.tsx:22-70 | The flags the command carries are the fixed flag order filtered by each flag's own condition |
| CommandDisplay.PlanFlagsExactlyWanted | components/CommandDisplay.tsx:22-70 | A flag is in the command iff its condition holds (limit non-empty and not `all`, lists non-empty, numbers > 0, strings non-empty, switches true, vault flag by trimmed password, never `--become`); the flags form a sub-sequence of the fixed order |
| CommandDisplay.WantedIsOrdered | components/CommandDisplay.tsx:22-70 | Every flag whose condition holds has a place in the fixed order |
| CommandDisplay.ComposeCarriesWanted | components/CommandDisplay.tsx:19-70 | The rendered text of every wanted flag occurs in the command string |
| CommandDisplay.PasswordFileIffNotBlank | components/CommandDisplay.tsx:36 | The password-file branch is taken iff the password is not all white space, and the plan then holds the untrimmed password |
| CommandDisplay.VaultFlagsExclusive | components/CommandDisplay.tsx:36-40 | The command carries exactly one of `--vault-password-file .vault_pass` and `--ask-vault-pass`, the latter iff the password is blank |
| CommandDisplay.PasswordFileStages | components/CommandDisplay.tsx:36-37 | With a non-blank password the command starts (after any `cd`) with `echo "<untrimmed pw>" > .vault_pass && ` and the invocation, and ends with `--vault-password-file .vault_pass && rm .vault_pass` followed by the later flags |
| CommandDisplay.AskPassStages | components/CommandDisplay.tsx:38-40 | With a blank password the command starts (after any `cd`) with the invocation and ends with ` --ask-vault-pass` followed by the later flags |
| CommandDisplay.HomePrefixIffSwitch | components/CommandDisplay.tsx:73-77 | The command is the `cd "$MOGEND_HOME" && \` line plus the unprefixed command when the switch is on, and the unprefixed command otherwise; it starts with that line iff the switch is on |
| CommandDisplay.ComposeIgnoresUnreadFields | components/CommandDisplay.tsx:14-78 | Changing project, action, version, extraVars, phase or become leaves the command byte-identical |
| CommandDisplay.CleanupTakesLateFlags | components/CommandDisplay.tsx:37-44 | With a password file and forks > 0, the command contains ` && rm .vault_pass -f <n>`: the forks flag is passed to `rm` |
| CommandDisplay.LateFlagsLeadWithForks | components/CommandDisplay.tsx:43-45 | With forks > 0 the later flags start with ` -f <n>` |
| CommandDisplay.IntendedFollowsPlan | components/CommandDisplay.tsx:36-70 | The corrected command is the invocation carrying all the plan's flags, between the optional `cd`/`echo` stages and the optional `rm` |
| CommandDisplay.IntendedCleansUpLast | components/CommandDisplay.tsx:36-70 | In the corrected command with a password file, `rm .vault_pass` is the last stage, after every flag |
| CommandDisplay.IntendedAgreesWhenNothingFollows | components/CommandDisplay.tsx:36-70 | The corrected and the as-written commands agree when no password file is used or no later flag is set |
| Text.SplitJoin | components/CommandDisplay.tsx:28 | The comma-joined tag value splits back into the tag list when no tag contains a comma |
| Text.JoinSplit | components/CommandDisplay.tsx:28 | Splitting any text at commas and joining it back gives the text |
| Text.ParseNatToString | components/CommandDisplay.tsx:44 | The decimal text of a positive count reads back as the count |
| Text.TrimEmptyIff | components/CommandDisplay.tsx:36 | `trim()` leaves nothing exactly when every character is white space |
| Text.ContainsIff | components/MaintenanceScriptsModal.tsx:78-79 | `includes` holds iff the needle occurs at some index |
| Text.LowerIdempotent | components/MaintenanceScriptsModal.tsx:78-79 | Lower-casing twice is lower-casing once |
| Seqs.FilterMembers | components/MaintenanceScriptsModal.tsx:77-81 | `filter` keeps exactly the elements that satisfy the test |
| Seqs.FilterCounts | components/MaintenanceScriptsModal.tsx:77-81 | `filter` keeps each satisfying element as often as it occurs, and no other element |
| Seqs.FilterOrder | components/MaintenanceScriptsModal.tsx:77-81 | `filter` preserves the order of the elements it keeps |
| Seqs.Without | App.tsx:127 | Removing a tag by value removes every occurrence and keeps the other tags, with their counts and order |
| Seqs.AppendThenWithout | App.tsx:126-128 | Appending an absent tag and then removing it gives back the list |
| Seqs.RemoveAt | App.tsx:119-123 | Removing by index drops exactly the element at that index; an out-of-range index leaves the list unchanged |
| App.PhaseTags | App.tsx:107-115 | A phase selects a non-empty tag list: the 15-tag full-pipeline list for `full_pipeline`, the 13-tag deployment list for `phase_deployment`, and `[phase]` for every other phase |
| App.DeploymentIsPipelineWithoutSetup | App.tsx:109-112 | The deployment list (13 tags) is the full-pipeline list (15 tags) without `copie` and `bootstrap`, in the same order |
| App.SelectPhase | App.tsx:107-117 | Selecting a phase sets the tag list and the phase and changes no other field |
| App.SelectPhaseIdempotent | App.tsx:107-117 | Selecting a phase never empties the tag list, and selecting it again changes nothing |
| App.ToggleSpecificTag | App.tsx:125-130 | Toggling appends an absent tag at the end, removes every occurrence of a present one (other tags keep their counts and order), always sets the phase to `custom`, and changes no other field |
| App.ToggleTwiceRestoresTags | App.tsx:125-130 | Toggling an absent tag twice restores the tag list |
| App.ToggleLeavesPhase | App.tsx:129 | After a toggle the phase is `custom`, which is not a phase of the table, even from an aggregate phase |
| App.RemoveTag | App.tsx:119-123 | Removing by index edits only the chosen list: it drops exactly the element at that index, or leaves the list unchanged when the index is out of range |
| App.RemoveTagShortens | App.tsx:119-123 | Removing an in-range index shortens the list by one and takes out exactly that tag |
| App.SetLimit | App.tsx:218-234 | The group buttons and the text box replace the limit and nothing else |
| App.LastLimitWins | App.tsx:218-234 | Two limit choices in a row leave only the second: choices do not accumulate |
| App.AllGroupDropsLimit | App.tsx:218 | Choosing the "Tous (all)" group removes every `-l` flag from the command |
| App.StepKeepsUntouched | App.tsx:100-130 | No control of the page writes the skip tags, vault password, `cd` switch, timeout or the other advanced fields |
| App.RunKeepsUntouched | App.tsx:100-130 | After any sequence of page events from a record with those fields empty, they are still empty |
| App.FindPhase | App.tsx:362 | `PHASES.find` returns the first phase with that value, and none iff no phase has it |
| App.LimitLabel | App.tsx:357 | The limit cell is the limit, or `ALL` for an empty limit |
| App.PhaseLabel | App.tsx:362 | The operation cell is `MANUAL` when no phase has the value, and otherwise the caption of the first matching phase |
| App.PhaseCaptions | App.tsx:362 | No phase of the table has an empty caption or the caption `MANUAL` |
| App.ManualIffUnknownPhase | App.tsx:362 | The operation cell reads `MANUAL` iff the phase is not in the table |
| App.ToggleShowsManual | App.tsx:362 | After a tag toggle the operation cell reads `MANUAL` |
| App.VaultCellMatchesCommand | App.tsx:367 | On every record the page can reach, the command asks for the vault password, as the fixed Vault cell `--ask-vault-pass` says |
| App.ReachableHasNoHomeStage | App.tsx:7-24 | No record the page can reach has a command with the `cd "$MOGEND_HOME"` line |
| App.InitialPlan | App.tsx:7-24 | The initial record's command carries only `--tags "phase_precheck"` and `--ask-vault-pass`, with no `cd` and no password file |
| App.InitialCommand | App.tsx:7-24 | The initial command is `ansible-playbook playbooks/install.yml -i inventories/qual/inventory.ini --tags "phase_precheck" --ask-vault-pass` |
| App.PasswordAndForksPlan | App.tsx:7-24 | With password `pw` and 10 forks added to the initial record, the plan has a password file and `-f 10` as its only later flag |
| App.ForksLandOnCleanup | components/CommandDisplay.tsx:37-44 | With password `pw` and 10 forks, the as-written command ends `&& rm .vault_pass -f 10`, while the corrected one puts `-f 10` on the playbook and ends with `&& rm .vault_pass` |
| Explanation.FindTag | components/CommandExplanationModal.tsx:29 | The lookup returns the first entry of the table whose `id` is the tag, or none iff no entry has that `id` |
| Explanation.DescribeTag | components/CommandExplanationModal.tsx:28-31 | A tag's entry carries the tag as its id; it has the description of the entry found, and the fallback description when the table has no entry with that id |
| Explanation.SelectedTagsInfo | components/CommandExplanationModal.tsx:28-31 | One entry per configured tag, with the same length and order, and each id equal to its tag |
| Explanation.SelectedTagsRoundTrip | components/CommandExplanationModal.tsx:28-31 | Reading the ids back from the entries gives the configured tag list |
| Explanation.AsEntriesHaveNoId | constants.tsx:90-95 | The specific-tag table holds plain strings, none of which has an `id` |
| Explanation.UndescribedWithoutIds | components/CommandExplanationModal.tsx:29-30 | Against a table without ids, every tag gets the fallback description |
| Explanation.PageTagsUndescribed | components/CommandExplanationModal.tsx:29-30 | On the page every string tag gets the fallback description "Tag système ou personnalisé sans description enregistrée." |
| Explanation.NoTagNoticeIffNoTags | components/CommandExplanationModal.tsx:143 | The "no tag selected" notice is shown iff the tag list is empty |
| Explanation.CategoryKeepsItsTags | components/CommandExplanationModal.tsx:34-39 | Each category keeps exactly the entries passing its test, as often as they occur, as an order-preserving sub-sequence |
| Explanation.CategoryOfConfiguredTags | components/CommandExplanationModal.tsx:35-38 | A tag is listed under a category iff it is configured and passes that category's test (core: `phase_` prefix or solr/mcf/lancement; the others: their fixed lists) |
| Explanation.PhasePostTests | components/CommandExplanationModal.tsx:36-38 | `phase_post` passes both the core and the post test |
| Explanation.PhasePostInTwoCategories | components/CommandExplanationModal.tsx:36-38 | A configured `phase_post` is listed under both core and post |
| Explanation.UninstallTests | components/CommandExplanationModal.tsx:35-38 | `uninstall` passes no category test |
| Explanation.UninstallIsNowhere | components/CommandExplanationModal.tsx:34-39 | With only `uninstall` selected every category is empty, yet the "no tag" notice is not shown |
| Explanation.PipelineTagsAreCategorised | components/CommandExplanationModal.tsx:34-39 | Every tag of the full-pipeline phase falls in at least one category |
| Explanation.EnvironmentCaption | components/CommandExplanationModal.tsx:25 | The environment cell is the caption of the first table entry with that value, and is absent iff no entry has it |
| Explanation.TargetLimit | components/CommandExplanationModal.tsx:81 | The limit cell is never empty: it is the limit, or `all` for an empty limit |
| Explanation.TargetLimitMatchesCommand | components/CommandExplanationModal.tsx:81 | The limit cell reads `all` exactly when the command carries no `-l` for the limit |
| Explanation.TechnicalSheet | components/CommandExplanationModal.tsx:162-168 | The sheet shows the inventory directory, `Simulation (--check)` iff check mode and `Application directe` otherwise, `Vault Pass File` iff the password is non-empty (untrimmed) and `Ask-Pass (Prompt)` otherwise, the user when set and `System Default` otherwise, and the timeout label |
| Explanation.TimeoutLabel | components/CommandExplanationModal.tsx:168 | A positive timeout is shown as digits followed by `s` |
| Explanation.TimeoutLabelRoundTrip | components/CommandExplanationModal.tsx:168 | The digits before the `s` read back as the timeout, and `Défaut` is shown iff the timeout is not positive |
| Explanation.SheetMatchesCommand | components/CommandExplanationModal.tsx:164-168 | The mode, user and timeout cells agree with the `--check`, `-u` and `--timeout` flags of the command |
| Explanation.SecretsLabelVersusCommand | components/CommandExplanationModal.tsx:165 | A whitespace-only password shows `Vault Pass File` while the command uses `--ask-vault-pass`; otherwise the cell agrees with the command's vault flag |
| Explanation.BlankPasswordShowsFile | components/CommandExplanationModal.tsx:165 | For the password `" "` the cell reads `Vault Pass File`, while the trimmed test gives `Ask-Pass (Prompt)` |
| Explanation.SecretsLabelIntended | components/CommandExplanationModal.tsx:165 | The corrected cell is one of the two labels |
| Explanation.SecretsIntendedMatchesCommand | components/CommandExplanationModal.tsx:165 | The corrected cell reads `Vault Pass File` iff the command uses the password file, and agrees with the as-written cell whenever the password is empty or not blank |
| Explanation.ProdWarningMatchesCommand | components/CommandExplanationModal.tsx:190 | The production warning is shown iff the command targets the prod inventory without `--check` |
| Explanation.InventoryInjective | components/CommandExplanationModal.tsx:190 | Different environments give different invocations |
| Explanation.SwitchBadges | components/CommandExplanationModal.tsx:181-184 | The badge row starts with the tag count |
| Explanation.Badges | components/CommandExplanationModal.tsx:181-185 | The rendered badge row starts with the tag count and holds a bare `0` iff forks is 0 |
| Explanation.ZeroForksShowStrayZero | components/CommandExplanationModal.tsx:185 | With forks at 0, as on the initial record, the row ends in a stray `0` |
| Explanation.BadgesIntended | components/CommandExplanationModal.tsx:181-185 | The corrected row never holds a bare number |
| Explanation.BadgesIntendedMatchCommand | components/CommandExplanationModal.tsx:181-185 | The corrected row differs from the rendered one only by the stray `0`; it has a forks badge iff the command has `-f`, a verbose badge iff `-vvv`, a diff badge iff `--diff`, and a home badge iff the switch is on |
| Maintenance.Narrow | components/MaintenanceScriptsModal.tsx:75-80 | Narrowing a category keeps its title and icon |
| Maintenance.NarrowAll | components/MaintenanceScriptsModal.tsx:75-80 | Narrowing keeps one category per category, in order: the i-th result is the i-th category narrowed to its matching scripts |
| Maintenance.FilterCategories | components/MaintenanceScriptsModal.tsx:75-81 | The result has no more categories than the catalogue |
| Maintenance.NarrowKeepsMatches | components/MaintenanceScriptsModal.tsx:77-80 | A category keeps exactly its matching scripts, in order and as often as they occur |
| Maintenance.KeptCategories | components/MaintenanceScriptsModal.tsx:75-81 | The result holds exactly the narrowed categories that kept a script, in catalogue order |
| Maintenance.SearchIsSound | components/MaintenanceScriptsModal.tsx:75-81 | Every category shown is non-empty and is a category of the catalogue with the same title and icon and a sub-sequence of its scripts; every script shown matches the term |
| Maintenance.SearchIsComplete | components/MaintenanceScriptsModal.tsx:77-81 | Every matching script is shown, in its narrowed category |
| Maintenance.DroppedIffNoMatch | components/MaintenanceScriptsModal.tsx:81 | A category is kept iff at least one of its scripts matches |
| Maintenance.NoMatchMessageIffNothingMatches | components/MaintenanceScriptsModal.tsx:130 | The "no script matches" message is shown iff no script of any category matches |
| Maintenance.EmptyTermMatches | components/MaintenanceScriptsModal.tsx:78-79 | Every script matches the empty term |
| Maintenance.EmptyTermShowsAll | components/MaintenanceScriptsModal.tsx:75-81 | An empty term returns a catalogue without empty categories unchanged |
| Maintenance.EmptySearchShowsCatalogue | components/MaintenanceScriptsModal.tsx:14-81 | An empty search shows the whole catalogue of the page |
| Maintenance.CaseInsensitive | components/MaintenanceScriptsModal.tsx:78-79 | Terms that are equal up to letter case give the same result |
| Maintenance.LowerTermSameResult | components/MaintenanceScriptsModal.tsx:78-79 | Lower-casing the term does not change the result |

## Left out

- Clipboard copy and the two-second "copied" indicator (components/CommandDisplay.tsx:82-86): these are browser I/O and a timer.
- React state and hooks: `useState`, the scroll lock, and the open/closed switches of the dialogs. The handlers are modelled as pure transitions applied one after another.
- The stale read in `toggleSpecificTag`: App.tsx:126 reads `config` instead of `prev`. Events are applied in sequence, so each handler sees the current record.
- The natural-language assistant (`services/geminiService.ts`, `components/AiAssistant.tsx`): a network call to an external model plus `JSON.parse`.
  - Its phase expansion (services/geminiService.ts:60-64) repeats the App.tsx table.
  - Unlike App.tsx, it leaves the tags alone for other phases.
  - App.tsx does not render the assistant. Page events therefore never set the vault password, the `cd` switch or the other advanced fields, which `App.RunKeepsUntouched` states.
- The argument the specific-tag badges pass (App.tsx:266-271). They call `toggleSpecificTag(tag.id)` on plain strings, so the page hands the handler an undefined id, which the handler appends to the tag list. The handler itself (App.tsx:125-130) is modelled for any string tag id it is given; an undefined element of the tag list is not representable in the model. Its consequences are therefore not modelled:
  - In the explanation dialog, `SPECIFIC_TAGS.find(t => t.id === undefined)` (components/CommandExplanationModal.tsx:29) returns `uninstall`, the first table string, rather than the fallback entry. `Explanation.PageTagsUndescribed` covers string tags only.
  - The core category test calls `t.id.startsWith` on that string (components/CommandExplanationModal.tsx:36). This throws a TypeError, so the dialog cannot render.
  - `join(',')` (components/CommandDisplay.tsx:28) renders the undefined element as empty text, giving for example `--tags "phase_precheck,"`.
- Static or presentational dialogs with no logic beyond markup or fixed data: ReadmeModal, UserGuideModal, TechnicalReportModal, ArchitectureModal, ProjectInfoModal, AnsibleConfigModal, UsefulLinksModal, TerminalCopyModal, EasterEggModal, LandingScreen.
- Colours, icons, CSS upper-casing, and the environment badge `config.environment.toUpperCase()` (App.tsx:352): these are presentation only.
- `parseInt(value) || 0` for forks (App.tsx:312): the `SetForks` event takes the resulting integer.
- `forks` and `timeout` are held as `int`, where the source has a TypeScript `number`. The page only stores `parseInt` results; only the assistant could produce a fractional value.
- Full Unicode `toLowerCase`: `Text.Lower` lower-cases the ASCII letters only. The catalogue holds no accented capital, but a typed term can: JavaScript lower-cases the term `DÉMARRAGE` to `démarrage`, which matches `Démarrage` (components/MaintenanceScriptsModal.tsx:19), while the model keeps `É` and reports no match.
- Number rendering: `NumberText` writes plain decimal digits. JavaScript switches to exponent notation from 1e21, which is not modelled.
- Shell semantics of the emitted string: quoting, and injection through the password, `startAtTask` or `extraVarsRaw`. The model produces and reasons about strings only.
- Absence of text: "the command never contains `--ask-vault-pass`" is stated on the flag list (`CommandDisplay.VaultFlagsExclusive`), not on the string, because free-text fields can contain any text.
- App.VaultCellMatchesCommand: states the Vault cell's agreement only on records the page can reach. A record with a password, which only the assistant could produce, gets a password file while the cell still reads `--ask-vault-pass`.
- Explanation.SwitchBadges, Explanation.SecretsLabelIntended and Maintenance.FilterCategories: their own contracts are bounds. What they compute is stated by the lemmas listed next to them in the table.

## Findings

| source | as written | input that shows it | evidently intended | confidence | as-written member | corrected member |
|---|---|---|---|---|---|---|
| components/CommandExplanationModal.tsx:185 | `{config.forks && config.forks > 0 && <badge>}` renders the number itself when forks is `0` | forks = 0, as in the initial record: the badge row shows a stray `0` | no forks badge and nothing else for forks ≤ 0 | high (not executed) | Explanation.ZeroForksShowStrayZero | Explanation.BadgesIntendedMatchCommand |
| components/CommandDisplay.tsx:37-70 | the vault branch closes the command with ` && rm .vault_pass` before `-f`, `--timeout`, `-u`, the switches, `--start-at-task` and `-e` are appended | vaultPassword `pw`, forks 10: `… --vault-password-file .vault_pass && rm .vault_pass -f 10` | every flag on the playbook, with the password file deleted last | high (not executed) | CommandDisplay.CleanupTakesLateFlags | CommandDisplay.IntendedCleansUpLast |
| components/CommandExplanationModal.tsx:165 | the secrets cell tests the untrimmed password, while the composer trims it | vaultPassword `" "`: the cell reads `Vault Pass File`, while the command uses `--ask-vault-pass` | the cell follows the composer's trimmed test | medium (not executed) | Explanation.BlankPasswordShowsFile | Explanation.SecretsIntendedMatchesCommand |
