# InfraBox CLI core in Dafny

InfraBox is a thin command-line wrapper around Terraform for Azure environments.
Each environment is a directory under `environments/`. This project models four parts of it:
- the input sanitisers;
- the environment allow-list;
- the prompt rules;
- the CIDR overlap check.

It also models the Terraform facade (argument lists, plan exit codes, dry-run),
the command runner, the shared `provider.tf` symlink, and the two command handlers `destroy` and `initialize`.

The operating system is a `World` object (module `World`) with:
- a set of existing paths;
- a map of symbolic links;
- a trace of every observable effect, each one an `Event`: a process execution (argv, working directory, captured or not), a prompt, a `mkdir(parents=True)`, a symlink, or a template rendering;
- two oracles fixed when the world is created: `exitCodes(n)`, the exit code of the n-th process started, and `answers(n)`, the line typed at the n-th prompt.

The handlers are methods that change the world.
- Each method's postcondition ties the new trace to a pure function of the old state and the oracles (`DestroyEffects`, `InitializeEffects`).
- The properties the program promises are lemmas about those functions: what is executed, in which order, under which guards, and what happens in dry-run.

Modules:
- `Wrappers`: `Option`, `Result`, and `Outcome` (pass or a raised error).
- `Text`: ASCII `str.strip()`, `str.lower()`, character classes, and "keep only these characters", with their laws.
- `World`: paths, events, trace projections (`Commands`, `Prompts`, `Renders`), and the `World` class.
- `Utils`: `cli/utils.py` except the CIDR check.
- `Cidr`: `check_cidr_overlap` over already-parsed IPv4 networks (CIDR prefix notation, section 3.1 of RFC 4632).
- `TerraformUtils`: `cli/terraform_utils.py`.
- `DestroyCommand`: `cli/commands/destroy.py`.
- `InitializeCommand`: `cli/commands/initialize.py`.

Behaviour of the code that a reader might not expect, and that the model follows:
- a missing shared `provider.tf` is not handled by `initialize`: the `FileNotFoundError` escapes after the directory has been made (outcome `ProviderMissing`, the directory stays);
- the exit codes of `terraform init` and `validate` are ignored: nothing after them depends on them;
- `initialize` applies no allow-list: the name is only lower-cased and sanitised;
- between the symlink and the rendering, `initialize` asks five questions;
- an answer that is non-blank but has no safe character is not replaced by the default: `prompt_with_default` returns "" (cli/utils.py:112, `Utils.WithDefaultAnswerCanBeEmpty`).

## Model

| member | source | states |
|---|---|---|
| Text.LeadingBlanks | cli/utils.py:17 | the count of leading whitespace characters of a string, all of them whitespace and the next one not |
| Text.TrailingStart | cli/utils.py:17 | where the trailing whitespace begins: everything from there is whitespace and the character before is not |
| Text.Strip | cli/utils.py:17 | `str.strip()` result is no longer than the input and neither starts nor ends with whitespace |
| Text.StripSplit | cli/utils.py:17 | the input is a blank prefix, the stripped string, and a blank suffix, in that order |
| Text.SplitBlank | cli/utils.py:17 | cutting a string around a middle part whose two ends are whitespace gives it back, with both ends blank |
| Text.LeadingBlanksPadded | cli/utils.py:17 | whitespace in front of a word that does not start with whitespace is exactly the leading blank run |
| Text.TrailingStartPadded | cli/utils.py:17 | whitespace after a word that does not end with whitespace is exactly the trailing blank run |
| Text.StripPadded | cli/utils.py:105 | whatever whitespace surrounds a trimmed word, strip returns exactly that word |
| Text.StripEmptyIffBlank | cli/utils.py:111-112 | strip gives "" exactly for all-whitespace input (the `if user_input` test) |
| Text.StripTrimmed | cli/utils.py:17 | strip leaves a trimmed string unchanged |
| Text.Lower | cli/utils.py:22 | `str.lower()` keeps the length and lower-cases each ASCII letter in place |
| Text.Filter | cli/utils.py:17 | the kept characters all satisfy the predicate and are no more than the input |
| Text.FilterConcat | cli/utils.py:17 | filtering distributes over concatenation |
| Text.FilterIsSubsequence | cli/utils.py:17 | the filtered string is the input with characters deleted, order kept |
| Text.FilterCounts | cli/utils.py:17 | a kept character keeps all of its occurrences; a dropped one has none |
| Text.FilterKeepsAll | cli/utils.py:17 | a string of kept characters is unchanged |
| Text.FilterDropsAll | cli/utils.py:17 | a string of dropped characters becomes "" |
| Text.FilterIdempotent | cli/utils.py:17 | filtering twice is filtering once |
| Text.FilterSame | cli/utils.py:15-22 | predicates that agree on every character filter alike |
| Text.FilterLower | cli/utils.py:22 | lower-casing before or after filtering is the same when case does not change membership |
| Text.FilterBlank | cli/utils.py:17 | a filter that rejects whitespace empties a blank string |
| Text.FilterStrip | cli/utils.py:17 | stripping first makes no difference to a filter that rejects whitespace |
| Utils.SanitizeInput | cli/utils.py:15-17 | result holds only `[\w\-]` characters, is a subsequence of the input, and equals the input with every other character deleted |
| Utils.SanitizeInputKeepsSafe | cli/utils.py:15-17 | each safe character keeps every occurrence; every unsafe one has none |
| Utils.SanitizeInputIdempotent | cli/utils.py:15-17 | sanitising twice is sanitising once |
| Utils.SanitizeInputFixes | cli/utils.py:15-17 | a string of safe characters is returned unchanged |
| Utils.SanitizeEnvName | cli/utils.py:20-22 | result is no longer than the input and holds only alphanumerics, `-` and `_`, none upper case |
| Utils.SanitizeEnvNameIdempotent | cli/utils.py:20-22 | sanitising a name twice is sanitising it once |
| Utils.SanitizersAgree | cli/utils.py:15-22 | `sanitize_env_name(n)` is `sanitize_input(n).lower()` and also `sanitize_input(n.lower())` |
| Utils.ValidateEnvironment | cli/utils.py:25-27 | fails iff `allow_new` is false and the name is not "dev" or "stage", and the error names the input |
| Utils.ValidatedNamesAreSanitized | cli/utils.py:8-27 | an allow-listed name is non-empty, all safe characters, and a fixed point of both sanitisers |
| Utils.SafeLowerNameIsFixed | cli/utils.py:15-22 | a name of safe lower-case characters passes both sanitisers unchanged |
| Utils.GetEnvPath | cli/utils.py:30-42 | the allow-list check first (InvalidEnvironment); then a missing directory (EnvironmentNotFound, the `sys.exit(1)`); otherwise `ENVIRONMENTS_DIR/env` |
| Utils.RunEffectsExecuteOnce | cli/utils.py:81-100 | run_cmd executes nothing in dry-run and otherwise exactly the given argv, with no prompt |
| Utils.RunEffectsAppend | cli/utils.py:81-100 | after any trace, run_cmd adds the one command (none in dry-run) and no prompt |
| Utils.RunCmd | cli/utils.py:81-100 | returns None iff dry-run; otherwise one execution of argv in cwd, whose return code is the oracle's; files and links unchanged |
| Utils.InputAnswer | cli/utils.py:103-106 | prompt_input's decision: the default for a blank line; otherwise the non-empty stripped line |
| Utils.PromptInput | cli/utils.py:103-106 | one prompt `"<prompt> [<default>]: "`, and the answer decided by InputAnswer from the next typed line |
| Utils.WithDefaultAnswer | cli/utils.py:109-112 | the default, unsanitised, for a blank line; otherwise the line's safe characters, which may be "" |
| Utils.WithDefaultAnswerCanBeEmpty | cli/utils.py:111-112 | the answer "!?" gives "", not the default |
| Utils.PromptWithDefault | cli/utils.py:109-112 | one prompt `"<text> [default: <default>]: "`, and the answer decided by WithDefaultAnswer |
| Utils.ConfirmationSuffix | cli/utils.py:117 | the suffix is `[Y/n]` iff the default is yes, and `[y/N]` iff not |
| Utils.ConfirmationAnswer | cli/utils.py:115-121 | the default for a blank line; otherwise yes iff the stripped, lower-cased line is "y" or "yes" |
| Utils.ConfirmationOfPaddedAnswer | cli/utils.py:118-121 | a non-empty word with any whitespace around it confirms iff it is "y" or "yes" in any case; the default plays no part |
| Utils.PromptUserConfirmation | cli/utils.py:115-121 | one prompt `"<message> <suffix>: "`, and the answer decided by ConfirmationAnswer |
| Utils.CreateProviderSymlink | cli/utils.py:124-148 | a missing shared provider fails before the dry-run test; dry-run changes nothing; an existing link path changes nothing; otherwise exactly one new link to `Shared/provider.tf`; a link that existed is never reported as created |
| World.LineageHasNoLongerPath | cli/commands/initialize.py:26 | mkdir(parents=True) creates no path longer than the directory itself |
| World.World.Spawn | cli/utils.py:90-97 | one execution appended to the trace, with the oracle's exit code |
| World.World.ReadLine | cli/utils.py:111 | one prompt appended; the answer is the oracle's next line |
| World.World.Mkdir | cli/commands/initialize.py:26 | a new directory and all its ancestors exist afterwards; an existing one is an error that changes nothing |
| World.World.SymlinkTo | cli/utils.py:140-146 | a new link path is added with its target; an existing one is FileExistsError, changes nothing and is not reported as created |
| World.World.RenderTemplate | cli/commands/initialize.py:45-47 | one render appended; the file exists afterwards unless dry-run |
| TerraformUtils.PlanArgv | cli/terraform_utils.py:25-32 | `terraform plan -detailed-exitcode`, with `-destroy` appended iff destroy |
| TerraformUtils.ApplyArgv | cli/terraform_utils.py:59-68 | `terraform apply -auto-approve`, with `-destroy` appended iff destroy |
| TerraformUtils.ArgvsDistinct | cli/terraform_utils.py:9-66 | the init, validate, plan and apply command lines are pairwise distinct, and destroy is recoverable from them |
| TerraformUtils.PlanStatusOf | cli/terraform_utils.py:48-56 | exit code 0 is no changes, 2 is changes, every other code is an error |
| TerraformUtils.TerraformInit | cli/terraform_utils.py:4-13 | exactly `terraform init -input=false`, captured, in env_path, with the caller's dry-run flag |
| TerraformUtils.TerraformValidate | cli/terraform_utils.py:16-22 | exactly `terraform validate`, captured, in env_path, with the caller's dry-run flag |
| TerraformUtils.TerraformPlan | cli/terraform_utils.py:25-32 | the plan command line, not captured, in env_path; the return code is the oracle's |
| TerraformUtils.TerraformStateHasChanges | cli/terraform_utils.py:35-56 | true iff not dry-run and the plan exits with 2; in dry-run the plan and the echoed apply execute nothing |
| TerraformUtils.TerraformApply | cli/terraform_utils.py:59-68 | the apply command line, not captured, in env_path, with the caller's dry-run flag |
| DestroyCommand.DestroyCommands | cli/commands/destroy.py:7-11 | nothing in dry-run; otherwise init, validate and plan -destroy in that order, then apply -destroy iff the plan exits with 2 and the answer confirms |
| DestroyCommand.DestroyEffectsSteps | cli/commands/destroy.py:7-11 | the effects are the three fixed commands followed by what comes after the plan |
| DestroyCommand.DestroyTailCommands | cli/commands/destroy.py:10-11 | after the plan: the prompt iff the plan exits with 2, and apply -destroy iff it also confirms |
| DestroyCommand.DestroyPrompts | cli/commands/destroy.py:10 | the confirmation prompt appears once when the plan reports changes and never otherwise (never in dry-run): the short-circuit `and` |
| DestroyCommand.DestroyAppliesOnlyOnConsent | cli/commands/destroy.py:10-11 | apply -destroy runs iff not dry-run, the plan exits with 2 and the user confirms; never without -destroy; at most once |
| DestroyCommand.ApplyOnlyWhenConsented | cli/commands/destroy.py:7-11 | in destroy's command lines, apply -destroy occurs iff not dry-run and consent was given, at most once, and apply without -destroy never |
| DestroyCommand.Run | cli/commands/destroy.py:4-11 | an invalid or missing environment fails with an untouched trace; otherwise the trace grows by DestroyEffects; files and links never change |
| DestroyCommand.DestroyAt | cli/commands/destroy.py:7-11 | from the resolved path on: the trace grows by DestroyEffects for the plan's exit code and the typed answer |
| DestroyCommand.DestroyEffectsAfter | cli/commands/destroy.py:7-11 | the effects appended to a trace, one call at a time |
| Cidr.Pow2Add | cli/utils.py:70 | powers of two multiply by adding exponents (block sizes) |
| Cidr.OverlapsIffShareAddress | cli/utils.py:71 | two networks overlap iff some address lies in both |
| Cidr.OverlapsSymmetric | cli/utils.py:71 | overlap is symmetric |
| Cidr.OverlappingBlocksNest | cli/utils.py:70-71 | with strict parsing, overlapping networks nest: the shorter prefix contains the whole of the other |
| Cidr.BlockSizeSplit | cli/utils.py:70 | a block whose prefix is d bits shorter holds 2^d blocks of the longer prefix |
| Cidr.FirstConflictIn | cli/utils.py:68-78 | a match that does not parse or overlaps, with no conflicting match before it; none iff no match conflicts |
| Cidr.FirstConflict | cli/utils.py:57-78 | a conflict found in a scanned entry; none iff no scanned entry's match conflicts |
| Cidr.FirstConflictIsFirst | cli/utils.py:57-78 | the reported conflict is the first the two loops reach: no earlier scanned directory has a conflicting match, and no earlier match of its own directory conflicts |
| Cidr.NoScannedConflictShift | cli/utils.py:57-63 | a conflict-free first directory followed by entries with no conflict before the i-th leaves none before the (i + 1)-th |
| Cidr.CheckCidrOverlap | cli/utils.py:53-78 | the nested loops return exactly the as-written verdict |
| Cidr.AsWrittenFailsIff | cli/utils.py:53-78 | fails iff the new CIDR is bad or some other environment's directory with a variables.tf has a bad or overlapping CIDR; after parsing, every failure is "Invalid CIDR" for another environment |
| Cidr.AsWrittenMislabelsOverlap | cli/utils.py:69-78 | a well-formed overlapping CIDR of another environment is reported as "Invalid CIDR" |
| Cidr.IntendedVerdict | cli/utils.py:69-78 | the same pass/fail decision; a new CIDR that does not parse is InvalidNewCidr, and a parsed one never is; after parsing, the error is an overlap error iff the first conflicting CIDR parsed, and "Invalid CIDR" only for a CIDR that does not parse, each naming an existing match of a scanned entry |
| Cidr.IntendedReportsOverlap | cli/utils.py:69-78 | with the intended verdict, a well-formed CIDR of another environment that overlaps the new one is reported as an overlap |
| InitializeCommand.EnvironmentName | cli/commands/initialize.py:16 | the name is `sanitize_input(arg.lower())`: all safe and lower-case characters, a subsequence of the lower-cased argument, equal to `sanitize_env_name(arg)` |
| InitializeCommand.EnvPathStaysInside | cli/commands/initialize.py:16-17 | the directory is `environments/` itself or one child of it whose name has no `/` and no `.` |
| InitializeCommand.SharedProviderOutsideEnvironments | cli/commands/initialize.py:26 | creating an environment directory never creates `Shared/provider.tf` |
| InitializeCommand.Defaults | cli/commands/initialize.py:31-42 | the five defaults in question order: "Infrabox", "westeurope", "Infrabox-" + env + ".com", "azureuser", "~/.ssh/id_rsa_infrabox.pub" |
| InitializeCommand.PromptTexts | cli/commands/initialize.py:31-42 | one prompt text per question |
| InitializeCommand.AnswersFrom | cli/commands/initialize.py:31-42 | one line per question, five in all |
| InitializeCommand.AnswersFromLines | cli/commands/initialize.py:31-42 | the i-th answer is the i-th typed line from the first prompt of the run on |
| InitializeCommand.TemplateContextKeys | cli/commands/initialize.py:31-42 | the context has exactly the six template keys, and "environment" is the sanitised name |
| InitializeCommand.TemplateContextAnswers | cli/commands/initialize.py:31-42 | each answered key holds its literal default for a blank line and the line's safe characters otherwise |
| InitializeCommand.TemplateContextEntry | cli/commands/initialize.py:31-42 | the i-th answered key holds the i-th answer decided by prompt_with_default |
| InitializeCommand.TemplateContextTable | cli/commands/initialize.py:31-42 | the context for five consecutive lines, written out |
| InitializeCommand.PromptTextsTable | cli/commands/initialize.py:31-42 | the five prompts, written out |
| InitializeCommand.SetupProjections | cli/commands/initialize.py:25-28 | mkdir and the link run no command, show no prompt, render nothing, and come in that order |
| InitializeCommand.RenderProjections | cli/commands/initialize.py:45-47 | the generators render variables.tf, main.tf and outputs.tf in that order, and run or ask nothing |
| InitializeCommand.RunEffectsRenderNothing | cli/commands/initialize.py:50-51 | terraform calls render nothing |
| InitializeCommand.ConfigureProjections | cli/commands/initialize.py:31-51 | after the setup: the prompts in order, the three files in order, then init and validate (neither in dry-run) |
| InitializeCommand.ConfigureCommands | cli/commands/initialize.py:50-51 | after the setup, the commands are init then validate, none in dry-run |
| InitializeCommand.ConfigurePrompts | cli/commands/initialize.py:31-42 | after the setup, the prompts are exactly the five questions |
| InitializeCommand.ConfigureRenders | cli/commands/initialize.py:45-47 | after the setup, the renders are the three files in order |
| InitializeCommand.ConfigureStaged | cli/commands/initialize.py:31-51 | every prompt precedes every render, which precedes every terraform command |
| InitializeCommand.PartsStaged | cli/commands/initialize.py:31-51 | prompts, renders and terraform calls each sit in their own stage |
| InitializeCommand.StagedConcat | cli/commands/initialize.py:25-51 | two ordered parts, the first no later than the second, make an ordered whole |
| InitializeCommand.StagesConcat | cli/commands/initialize.py:25-51 | stage bounds hold for a concatenation when they hold for both parts |
| InitializeCommand.InitializeProjections | cli/commands/initialize.py:25-51 | commands: init and validate only when not dry-run and the provider exists; prompts and renders: all five and all three unless the missing provider stopped the run |
| InitializeCommand.InitializeStaged | cli/commands/initialize.py:25-51 | mkdir, then the link, then every prompt, then every file, then terraform: no file is written before all answers are in |
| InitializeCommand.InitializeDryRunOnlyShows | cli/commands/initialize.py:25-51 | a dry run only prompts and renders: no mkdir, no link, no command, and every render is a dry one of the environment directory from the answers' context |
| InitializeCommand.ConfigureDryRunOnlyShows | cli/commands/initialize.py:31-51 | after the setup, a dry run only prompts and dry-renders the given directory and context |
| InitializeCommand.InitializeCreatesEnvironment | cli/commands/initialize.py:26-30 | after a run that is not a dry run the directory exists, so a second run aborts |
| InitializeCommand.AskVariables | cli/commands/initialize.py:31-42 | five prompts in the dictionary's order, and the context built from the next five typed lines |
| InitializeCommand.AskQuestions | cli/commands/initialize.py:31-42 | the five prompt_with_default calls with their literal texts and defaults, in order |
| InitializeCommand.ConfigureAt | cli/commands/initialize.py:31-51 | prompts, the three renders with the same flag, init and validate; the three files exist afterwards unless dry-run |
| InitializeCommand.Run | cli/commands/initialize.py:15-57 | an existing directory aborts with nothing changed; otherwise the state the run leaves (InitializedAs) |
| InitializeCommand.RunTwice | cli/commands/initialize.py:15-28 | running initialize twice with the same name: the second run always aborts, and the final state is the one the first run leaves (an abort, or InitializedAs), so the second changes nothing |
| InitializeCommand.InitializeAt | cli/commands/initialize.py:25-57 | outcome, trace, paths and links after a run on a new directory; the summary only outside dry-run |
| InitializeCommand.InitializeEffectsSplit | cli/commands/initialize.py:25-51 | past the setup, the effects are the setup followed by the configuration |
| InitializeCommand.CreateEnvironmentDir | cli/commands/initialize.py:25-28 | mkdir, then create_provider_symlink: the directory and its ancestors exist; the link is added iff the provider exists and the link did not; fails iff the provider is missing |

The functions and predicates that these contracts are stated in carry no contract of their own:
- `DestroyCommand.DestroyEffects` and `DestroyCommand.DestroyTail` (cli/commands/destroy.py:7-11);
- `InitializeCommand.SetupEffects`, `InitializeCommand.ConfigureEffects`, `InitializeCommand.InitializeEffects` and `InitializeCommand.InitializedAs` (cli/commands/initialize.py:25-57);
- `InitializeCommand.TemplateContext` (cli/commands/initialize.py:31-42);
- `Cidr.AsWrittenVerdict` (cli/utils.py:53-78), `Cidr.Scanned` (cli/utils.py:58-63) and `Cidr.Overlaps` (cli/utils.py:71);
- `Cidr.NoConflictBefore` and `Cidr.NoScannedConflictBefore` (cli/utils.py:57-78);
- `Utils.RunEffects` (cli/utils.py:81-100);
- `Utils.IsSafeChar` (cli/utils.py:17) and `Utils.IsEnvNameChar` (cli/utils.py:22);
- `Utils.InputPromptText` (cli/utils.py:105), `Utils.WithDefaultPromptText` (cli/utils.py:111) and `Utils.ConfirmationPromptText` (cli/utils.py:118).

Their properties are the lemmas and method contracts in the table.

## Left out

- Character classes are ASCII: Python's Unicode `\w`, `isalnum()`, `isspace()` and `lower()` on non-ASCII text are not modelled.
- `validate_cidr` and the parsing of CIDR strings (`ipaddress.IPv4Network`) are not modelled. Each match carries its parse result, or None for a string strict parsing rejects.
- Reading `variables.tf`, the regular expression that extracts CIDRs, and iterating the directory are not modelled. The check receives the directory entries with their matches, in iteration order.
- Printed messages (stdout, emoji, captured output) are not modelled. The initialize summary is modelled only as the `summaryShown` flag of the outcome.
- Terraform itself is an exit-code oracle. Process failures other than the exit code are not modelled, nor are OS errors other than an existing path at mkdir or symlink, nor `input()` at end of file.
- The template generators of `cli.infrastructure_templates` are not part of this model. A render is an event carrying the template, the directory, the context and the flag, plus the file path it creates.
- `INFRA_ROOT` and `ENVIRONMENTS_DIR` are fixed constant paths rather than derived from the installed file's location.
- The model assumes no invariant relating paths to their parent directories. Whether `provider.tf` already existed in the new directory is therefore an input of `InitializeEffects`, although on a real filesystem it is always false.
- Not part of this model, because they are argument parsing, dispatch or unused code: `cli/parser.py`, `Infrabox.py`, `infrabox.py`, `cli/core.py`, and the `create` command (`cli.commands.create` is not part of this model).
- InitializeCommand.Run: the `FileNotFoundError` of a missing shared provider is modelled as the outcome `ProviderMissing` rather than as an exception propagating out of the process.

## Findings

| source | as written | input that shows it | evidently intended | confidence | as-written member | corrected member |
|---|---|---|---|---|---|---|
| cli/utils.py:69-78 | The overlap `ValueError` is raised inside the `try`. The `except Exception` catches it and re-raises it as "Invalid CIDR". | New CIDR 10.0.0.0/16. Environment "stage" lists "10.0.1.0/24". | Report the overlap as an overlap. Report "Invalid CIDR" only for a string that does not parse. | not executed | Cidr.AsWrittenMislabelsOverlap | Cidr.IntendedVerdict |
