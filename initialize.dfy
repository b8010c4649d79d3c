/**
 * cli/commands/initialize.py: scaffold a new environment directory, link the
 * shared provider into it, ask for the template variables, render the three
 * Terraform files, then run terraform init and validate.
 */
module InitializeCommand {
  import opened Text
  import opened World
  import opened Utils
  import opened TerraformUtils

  // ----- the environment name and its directory -----

  /** The argument lower-cased, then sanitised: the same name sanitize_env_name gives. */
  function EnvironmentName(arg: string): (env: string)
    ensures forall i :: 0 <= i < |env| ==> IsSafeChar(env[i]) && !IsUpper(env[i])
    ensures env == SanitizeEnvName(arg)
    ensures IsSubsequence(env, Lower(arg))
  {
    SanitizersAgree(arg);
    SanitizeInput(Lower(arg))
  }

  function EnvPathFor(env: string): Path
  {
    Child(EnvironmentsDir, env)
  }

  /**
   * The directory never leaves the environments directory: it is that
   * directory itself (an argument with no safe character) or one child of it
   * whose name holds neither a separator nor a dot.
   */
  lemma EnvPathStaysInside(arg: string)
    ensures EnvPathFor(EnvironmentName(arg)) == EnvironmentsDir
            || (&& EnvPathFor(EnvironmentName(arg)).segments == EnvironmentsDir.segments + [EnvironmentName(arg)]
                && '/' !in EnvironmentName(arg) && '.' !in EnvironmentName(arg))
  {
  }

  /** mkdir(parents=True) on an environment directory never creates the shared provider. */
  lemma SharedProviderOutsideEnvironments(env: string)
    ensures SharedProvider !in Lineage(EnvPathFor(env))
  {
    var dir := EnvPathFor(env);
    forall k | 1 <= k <= |dir.segments|
      ensures Path(dir.segments[..k]) != SharedProvider
    {
      if k >= 2 {
        assert dir.segments[..k][1] == "environments" != "Shared" == SharedProvider.segments[1];
      } else {
        assert |dir.segments[..k]| == 1 < |SharedProvider.segments|;
      }
    }
  }

  // ----- the variables asked for, in the dictionary's order -----

  const Questions: seq<string> :=
    ["Enter name prefix", "Enter Azure location", "Enter DNS zone name",
     "Enter admin username", "Enter path to SSH public key"]

  /** The context keys filled from the answers, in the order they are asked. */
  const AnsweredKeys: seq<string> :=
    ["name_prefix", "location", "dns_zone_name", "admin_username", "ssh_public_key_path"]

  /** The defaults of the five questions; only the DNS zone depends on the name. */
  function Defaults(env: string): (ds: seq<string>)
    ensures |ds| == 5
    ensures ds[0] == "Infrabox" && ds[1] == "westeurope" && ds[3] == "azureuser"
    ensures ds[2] == "Infrabox-" + env + ".com" && ds[4] == "~/.ssh/id_rsa_infrabox.pub"
  {
    ["Infrabox", "westeurope", "Infrabox-" + env + ".com", "azureuser", "~/.ssh/id_rsa_infrabox.pub"]
  }

  /** The five prompts prompt_with_default shows. */
  function PromptTexts(env: string): (ps: seq<string>)
    ensures |ps| == 5
  {
    seq(5, i requires 0 <= i < 5 => WithDefaultPromptText(Questions[i], Defaults(env)[i]))
  }

  /** Five consecutive lines typed at the terminal, starting with the first-th. */
  function AnswersFrom(answers: nat -> string, first: nat): (raw: seq<string>)
    ensures |raw| == 5
  {
    seq(5, i requires 0 <= i < 5 => answers(first + i))
  }

  /** The i-th of the five lines is the (first + i)-th line typed. */
  lemma AnswersFromLines(answers: nat -> string, first: nat)
    ensures forall i :: 0 <= i < 5 ==> AnswersFrom(answers, first)[i] == answers(first + i)
  {
  }

  /** The dictionary run builds: the environment name and the five answers. */
  function TemplateContext(env: string, raw: seq<string>): map<string, string>
    requires |raw| == 5
  {
    map["name_prefix" := WithDefaultAnswer(raw[0], Defaults(env)[0]),
        "environment" := env,
        "location" := WithDefaultAnswer(raw[1], Defaults(env)[1]),
        "dns_zone_name" := WithDefaultAnswer(raw[2], Defaults(env)[2]),
        "admin_username" := WithDefaultAnswer(raw[3], Defaults(env)[3]),
        "ssh_public_key_path" := WithDefaultAnswer(raw[4], Defaults(env)[4])]
  }

  /** The context has exactly the six keys the templates use, and "environment" is the name itself. */
  lemma TemplateContextKeys(env: string, raw: seq<string>)
    requires |raw| == 5
    ensures TemplateContext(env, raw).Keys ==
              {"name_prefix", "environment", "location", "dns_zone_name", "admin_username", "ssh_public_key_path"}
    ensures TemplateContext(env, raw)["environment"] == env
  {
  }

  /**
   * Each asked key holds its default when the typed line is blank and the
   * line's safe characters otherwise (which may be empty).
   */
  lemma TemplateContextAnswers(env: string, raw: seq<string>, i: nat)
    requires |raw| == 5 && i < 5
    ensures AnsweredKeys[i] in TemplateContext(env, raw)
    ensures IsBlank(raw[i]) ==> TemplateContext(env, raw)[AnsweredKeys[i]] == Defaults(env)[i]
    ensures !IsBlank(raw[i]) ==> TemplateContext(env, raw)[AnsweredKeys[i]] == Filter(IsSafeChar, raw[i])
  {
    TemplateContextEntry(env, raw, i);
  }

  /** The i-th answered key holds the i-th answer, defaulted. */
  lemma TemplateContextEntry(env: string, raw: seq<string>, i: nat)
    requires |raw| == 5 && i < 5
    ensures AnsweredKeys[i] in TemplateContext(env, raw)
    ensures TemplateContext(env, raw)[AnsweredKeys[i]] == WithDefaultAnswer(raw[i], Defaults(env)[i])
  {
    var ctx := TemplateContext(env, raw);
    if i == 0 {
      assert AnsweredKeys[i] == "name_prefix";
    } else if i == 1 {
      assert AnsweredKeys[i] == "location";
    } else if i == 2 {
      assert AnsweredKeys[i] == "dns_zone_name";
    } else if i == 3 {
      assert AnsweredKeys[i] == "admin_username";
    } else {
      assert AnsweredKeys[i] == "ssh_public_key_path";
    }
  }

  // ----- the effects of run -----

  /** The three generators, in the order run calls them. */
  function RenderEvents(dir: Path, ctx: map<string, string>, dryRun: bool): seq<Event>
  {
    [Render(VariablesTf, dir, ctx, dryRun), Render(MainTf, dir, ctx, dryRun), Render(OutputsTf, dir, ctx, dryRun)]
  }

  function TemplateFiles(dir: Path): set<Path>
  {
    {Child(dir, FileName(VariablesTf)), Child(dir, FileName(MainTf)), Child(dir, FileName(OutputsTf))}
  }

  /** The directory and, when it was not there yet, the provider link. */
  function SetupEffects(dir: Path, linkCreated: bool): seq<Event>
  {
    [MakeDirs(dir)] + (if linkCreated then [Symlink(ProviderLink(dir), SharedProvider)] else [])
  }

  /** The prompts, the three files rendered from ctx, then terraform init and validate. */
  function ConfigureEffects(texts: seq<string>, dir: Path, ctx: map<string, string>, dryRun: bool): seq<Event>
  {
    PromptEvents(texts)
    + RenderEvents(dir, ctx, dryRun)
    + RunEffects(InitArgv, dir, dryRun, true)
    + RunEffects(ValidateArgv, dir, dryRun, true)
  }

  /**
   * What run adds to the trace for a directory that does not exist yet.  In
   * dry-run nothing is set up; otherwise a missing shared provider stops the
   * command (create_provider_symlink raises) right after the directory is made.
   */
  function InitializeEffects(env: string, dryRun: bool, sharedExists: bool, linkExisted: bool, raw: seq<string>)
    : seq<Event>
    requires |raw| == 5
  {
    var dir := EnvPathFor(env);
    var configure := ConfigureEffects(PromptTexts(env), dir, TemplateContext(env, raw), dryRun);
    if dryRun then configure
    else if !sharedExists then [MakeDirs(dir)]
    else SetupEffects(dir, !linkExisted) + configure
  }

  /** The paths that exist afterwards and did not necessarily exist before. */
  function InitializedPaths(dir: Path, dryRun: bool, sharedExists: bool): set<Path>
  {
    if dryRun then {}
    else Lineage(dir) + (if sharedExists then {ProviderLink(dir)} + TemplateFiles(dir) else {})
  }

  datatype InitOutcome =
    | AlreadyExists
    | ProviderMissing
    | Initialized(summaryShown: bool)

  // ----- ordering of the effects -----

  /** Directories, then the link, then prompts, then rendering, then terraform. */
  function Stage(e: Event): nat
  {
    match e
    case MakeDirs(_) => 0
    case Symlink(_, _) => 1
    case Prompt(_) => 2
    case Render(_, _, _, _) => 3
    case Exec(_, _, _) => 4
  }

  predicate Staged(t: seq<Event>)
  {
    forall i, j :: 0 <= i < j < |t| ==> Stage(t[i]) <= Stage(t[j])
  }

  predicate StagesAtMost(t: seq<Event>, k: nat)
  {
    forall i :: 0 <= i < |t| ==> Stage(t[i]) <= k
  }

  predicate StagesAtLeast(t: seq<Event>, k: nat)
  {
    forall i :: 0 <= i < |t| ==> k <= Stage(t[i])
  }

  lemma StagedConcat(a: seq<Event>, b: seq<Event>, k: nat)
    requires Staged(a) && Staged(b) && StagesAtMost(a, k) && StagesAtLeast(b, k)
    ensures Staged(a + b)
  {
    forall i, j | 0 <= i < j < |a + b|
      ensures Stage((a + b)[i]) <= Stage((a + b)[j])
    {
      if j < |a| {
        assert (a + b)[i] == a[i] && (a + b)[j] == a[j];
      } else if i < |a| {
        assert (a + b)[i] == a[i] && (a + b)[j] == b[j - |a|];
      } else {
        assert (a + b)[i] == b[i - |a|] && (a + b)[j] == b[j - |a|];
      }
    }
  }

  lemma StagesConcat(a: seq<Event>, b: seq<Event>, k: nat)
    ensures StagesAtLeast(a, k) && StagesAtLeast(b, k) ==> StagesAtLeast(a + b, k)
    ensures StagesAtMost(a, k) && StagesAtMost(b, k) ==> StagesAtMost(a + b, k)
  {
    if StagesAtLeast(a, k) && StagesAtLeast(b, k) {
      forall i | 0 <= i < |a + b|
        ensures k <= Stage((a + b)[i])
      {
        if i >= |a| {
          assert (a + b)[i] == b[i - |a|];
        }
      }
    }
    if StagesAtMost(a, k) && StagesAtMost(b, k) {
      forall i | 0 <= i < |a + b|
        ensures Stage((a + b)[i]) <= k
      {
        if i >= |a| {
          assert (a + b)[i] == b[i - |a|];
        }
      }
    }
  }

  lemma SetupProjections(dir: Path, linkCreated: bool)
    ensures Commands(SetupEffects(dir, linkCreated)) == []
    ensures Prompts(SetupEffects(dir, linkCreated)) == []
    ensures Renders(SetupEffects(dir, linkCreated)) == []
    ensures Staged(SetupEffects(dir, linkCreated)) && StagesAtMost(SetupEffects(dir, linkCreated), 1)
  {
    var tail := if linkCreated then [Symlink(ProviderLink(dir), SharedProvider)] else [];
    CommandsConcat([MakeDirs(dir)], tail);
    PromptsConcat([MakeDirs(dir)], tail);
    RendersConcat([MakeDirs(dir)], tail);
    CommandsOfOne(MakeDirs(dir));
    PromptsOfOne(MakeDirs(dir));
    RendersOfOne(MakeDirs(dir));
    CommandsOfOne(Symlink(ProviderLink(dir), SharedProvider));
    PromptsOfOne(Symlink(ProviderLink(dir), SharedProvider));
    RendersOfOne(Symlink(ProviderLink(dir), SharedProvider));
  }

  lemma RenderProjections(dir: Path, ctx: map<string, string>, dryRun: bool)
    ensures Commands(RenderEvents(dir, ctx, dryRun)) == []
    ensures Prompts(RenderEvents(dir, ctx, dryRun)) == []
    ensures Renders(RenderEvents(dir, ctx, dryRun)) == [VariablesTf, MainTf, OutputsTf]
  {
    var r1, r2, r3 := Render(VariablesTf, dir, ctx, dryRun), Render(MainTf, dir, ctx, dryRun), Render(OutputsTf, dir, ctx, dryRun);
    assert RenderEvents(dir, ctx, dryRun) == [r1] + ([r2] + [r3]);
    CommandsConcat([r1], [r2] + [r3]);
    PromptsConcat([r1], [r2] + [r3]);
    RendersConcat([r1], [r2] + [r3]);
    CommandsConcat([r2], [r3]);
    PromptsConcat([r2], [r3]);
    RendersConcat([r2], [r3]);
    CommandsOfOne(r1);
    PromptsOfOne(r1);
    RendersOfOne(r1);
    CommandsOfOne(r2);
    PromptsOfOne(r2);
    RendersOfOne(r2);
    CommandsOfOne(r3);
    PromptsOfOne(r3);
    RendersOfOne(r3);
  }

  lemma RunEffectsRenderNothing(cmd: seq<string>, cwd: Path, dryRun: bool, captureOutput: bool)
    ensures Renders(RunEffects(cmd, cwd, dryRun, captureOutput)) == []
  {
    if !dryRun {
      RendersOfOne(Exec(cmd, cwd, captureOutput));
    }
  }

  /**
   * After the setup: the prompts in order, the three files in order, then init
   * and validate (neither in dry-run).
   */
  lemma ConfigureProjections(texts: seq<string>, dir: Path, ctx: map<string, string>, dryRun: bool)
    ensures Commands(ConfigureEffects(texts, dir, ctx, dryRun)) == if dryRun then [] else [InitArgv, ValidateArgv]
    ensures Prompts(ConfigureEffects(texts, dir, ctx, dryRun)) == texts
    ensures Renders(ConfigureEffects(texts, dir, ctx, dryRun)) == [VariablesTf, MainTf, OutputsTf]
  {
    ConfigureCommands(texts, dir, ctx, dryRun);
    ConfigurePrompts(texts, dir, ctx, dryRun);
    ConfigureRenders(texts, dir, ctx, dryRun);
  }

  lemma ConfigureCommands(texts: seq<string>, dir: Path, ctx: map<string, string>, dryRun: bool)
    ensures Commands(ConfigureEffects(texts, dir, ctx, dryRun)) == if dryRun then [] else [InitArgv, ValidateArgv]
  {
    PromptEventsProjections(texts);
    RenderProjections(dir, ctx, dryRun);
    var p, r := PromptEvents(texts), RenderEvents(dir, ctx, dryRun);
    var x1, x2 := RunEffects(InitArgv, dir, dryRun, true), RunEffects(ValidateArgv, dir, dryRun, true);
    RunEffectsExecuteOnce(InitArgv, dir, dryRun, true);
    RunEffectsExecuteOnce(ValidateArgv, dir, dryRun, true);
    CommandsConcat(p + r + x1, x2);
    CommandsConcat(p + r, x1);
    CommandsConcat(p, r);
  }

  lemma ConfigurePrompts(texts: seq<string>, dir: Path, ctx: map<string, string>, dryRun: bool)
    ensures Prompts(ConfigureEffects(texts, dir, ctx, dryRun)) == texts
  {
    PromptEventsProjections(texts);
    RenderProjections(dir, ctx, dryRun);
    var p, r := PromptEvents(texts), RenderEvents(dir, ctx, dryRun);
    var x1, x2 := RunEffects(InitArgv, dir, dryRun, true), RunEffects(ValidateArgv, dir, dryRun, true);
    RunEffectsExecuteOnce(InitArgv, dir, dryRun, true);
    RunEffectsExecuteOnce(ValidateArgv, dir, dryRun, true);
    PromptsConcat(p + r + x1, x2);
    PromptsConcat(p + r, x1);
    PromptsConcat(p, r);
  }

  lemma ConfigureRenders(texts: seq<string>, dir: Path, ctx: map<string, string>, dryRun: bool)
    ensures Renders(ConfigureEffects(texts, dir, ctx, dryRun)) == [VariablesTf, MainTf, OutputsTf]
  {
    PromptEventsProjections(texts);
    RenderProjections(dir, ctx, dryRun);
    var p, r := PromptEvents(texts), RenderEvents(dir, ctx, dryRun);
    var x1, x2 := RunEffects(InitArgv, dir, dryRun, true), RunEffects(ValidateArgv, dir, dryRun, true);
    RunEffectsRenderNothing(InitArgv, dir, dryRun, true);
    RunEffectsRenderNothing(ValidateArgv, dir, dryRun, true);
    RendersConcat(p + r + x1, x2);
    RendersConcat(p + r, x1);
    RendersConcat(p, r);
  }

  /** Within the second part every prompt precedes every render, which precedes terraform. */
  lemma ConfigureStaged(texts: seq<string>, dir: Path, ctx: map<string, string>, dryRun: bool)
    ensures Staged(ConfigureEffects(texts, dir, ctx, dryRun)) && StagesAtLeast(ConfigureEffects(texts, dir, ctx, dryRun), 2)
  {
    var p := PromptEvents(texts);
    var r := RenderEvents(dir, ctx, dryRun);
    var x := RunEffects(InitArgv, dir, dryRun, true) + RunEffects(ValidateArgv, dir, dryRun, true);
    PartsStaged(texts, dir, ctx, dryRun);
    StagedConcat(p, r, 2);
    StagesConcat(p, r, 2);
    StagesConcat(p, r, 3);
    StagedConcat(p + r, x, 3);
    StagesConcat(p + r, x, 2);
    assert ConfigureEffects(texts, dir, ctx, dryRun) == (p + r) + x;
  }

  /** Each part of the second part sits in one stage. */
  lemma PartsStaged(texts: seq<string>, dir: Path, ctx: map<string, string>, dryRun: bool)
    ensures Staged(PromptEvents(texts)) && StagesAtMost(PromptEvents(texts), 2) && StagesAtLeast(PromptEvents(texts), 2)
    ensures Staged(RenderEvents(dir, ctx, dryRun)) && StagesAtMost(RenderEvents(dir, ctx, dryRun), 3)
    ensures StagesAtLeast(RenderEvents(dir, ctx, dryRun), 3)
    ensures var x := RunEffects(InitArgv, dir, dryRun, true) + RunEffects(ValidateArgv, dir, dryRun, true);
            Staged(x) && StagesAtLeast(x, 3)
  {
  }

  /** The projections of the whole run, for a directory that did not exist. */
  lemma InitializeProjections(env: string, dryRun: bool, sharedExists: bool, linkExisted: bool, raw: seq<string>)
    requires |raw| == 5
    ensures Commands(InitializeEffects(env, dryRun, sharedExists, linkExisted, raw)) ==
              if dryRun || !sharedExists then [] else [InitArgv, ValidateArgv]
    ensures Prompts(InitializeEffects(env, dryRun, sharedExists, linkExisted, raw)) ==
              if !dryRun && !sharedExists then [] else PromptTexts(env)
    ensures Renders(InitializeEffects(env, dryRun, sharedExists, linkExisted, raw)) ==
              if !dryRun && !sharedExists then [] else [VariablesTf, MainTf, OutputsTf]
  {
    var dir := EnvPathFor(env);
    var ctx := TemplateContext(env, raw);
    if dryRun {
      ConfigureProjections(PromptTexts(env), dir, ctx, true);
    } else if !sharedExists {
      CommandsOfOne(MakeDirs(dir));
      PromptsOfOne(MakeDirs(dir));
      RendersOfOne(MakeDirs(dir));
    } else {
      var s, c := SetupEffects(dir, !linkExisted), ConfigureEffects(PromptTexts(env), dir, ctx, false);
      SetupProjections(dir, !linkExisted);
      ConfigureProjections(PromptTexts(env), dir, ctx, false);
      CommandsConcat(s, c);
      PromptsConcat(s, c);
      RendersConcat(s, c);
    }
  }

  /**
   * The order of run: the directory, then the link, then every prompt, then
   * every file, then terraform; so no file is written before all answers are in,
   * and terraform sees every file.
   */
  lemma InitializeStaged(env: string, dryRun: bool, sharedExists: bool, linkExisted: bool, raw: seq<string>)
    requires |raw| == 5
    ensures Staged(InitializeEffects(env, dryRun, sharedExists, linkExisted, raw))
  {
    var dir := EnvPathFor(env);
    var ctx := TemplateContext(env, raw);
    ConfigureStaged(PromptTexts(env), dir, ctx, dryRun);
    if !dryRun && sharedExists {
      SetupProjections(dir, !linkExisted);
      StagedConcat(SetupEffects(dir, !linkExisted), ConfigureEffects(PromptTexts(env), dir, ctx, false), 2);
    }
  }

  /**
   * A dry run only prompts and renders; every file it shows is a dry render of
   * the environment directory from the context built from the answers.
   */
  lemma InitializeDryRunOnlyShows(env: string, sharedExists: bool, linkExisted: bool, raw: seq<string>)
    requires |raw| == 5
    ensures forall e :: e in InitializeEffects(env, true, sharedExists, linkExisted, raw) ==>
              e.Prompt? || (e.Render? && e.dryRun && e.dir == EnvPathFor(env) && e.context == TemplateContext(env, raw))
  {
    var dir := EnvPathFor(env);
    var ctx := TemplateContext(env, raw);
    assert InitializeEffects(env, true, sharedExists, linkExisted, raw) == ConfigureEffects(PromptTexts(env), dir, ctx, true);
    ConfigureDryRunOnlyShows(PromptTexts(env), dir, ctx);
  }

  lemma ConfigureDryRunOnlyShows(texts: seq<string>, dir: Path, ctx: map<string, string>)
    ensures forall e :: e in ConfigureEffects(texts, dir, ctx, true) ==>
              e.Prompt? || (e.Render? && e.dryRun && e.dir == dir && e.context == ctx)
  {
    var p := PromptEvents(texts);
    var r := RenderEvents(dir, ctx, true);
    assert ConfigureEffects(texts, dir, ctx, true) == p + r;
    forall e: Event | e in p + r
      ensures e.Prompt? || (e.Render? && e.dryRun && e.dir == dir && e.context == ctx)
    {
      if e in p {
        var i :| 0 <= i < |p| && p[i] == e;
      }
    }
  }

  /** After a run that was not a dry run the directory exists, so a second run aborts. */
  lemma InitializeCreatesEnvironment(env: string, sharedExists: bool)
    ensures EnvPathFor(env) in InitializedPaths(EnvPathFor(env), false, sharedExists)
  {
    var dir := EnvPathFor(env);
    assert dir.segments[..|dir.segments|] == dir.segments;
  }

  // ----- run -----

  /** The five prompt_with_default calls of the variables dictionary. */
  method AskVariables(w: World, env: string) returns (variables: map<string, string>)
    requires w.Valid()
    modifies w
    ensures w.Valid() && w.fs == old(w.fs) && w.links == old(w.links)
    ensures w.trace == old(w.trace) + PromptEvents(PromptTexts(env))
    ensures variables == TemplateContext(env, AnswersFrom(w.answers, |Prompts(old(w.trace))|))
  {
    ghost var n := |Prompts(w.trace)|;
    var namePrefix, location, dnsZoneName, adminUsername, sshPublicKeyPath := AskQuestions(w, env);
    variables := map["name_prefix" := namePrefix,
                     "environment" := env,
                     "location" := location,
                     "dns_zone_name" := dnsZoneName,
                     "admin_username" := adminUsername,
                     "ssh_public_key_path" := sshPublicKeyPath];
    PromptTextsTable(env);
    TemplateContextTable(env, w.answers, n);
  }

  /** The five questions asked in order, each answer sanitized or defaulted. */
  method AskQuestions(w: World, env: string)
    returns (namePrefix: string, location: string, dnsZoneName: string, adminUsername: string, sshPublicKeyPath: string)
    requires w.Valid()
    modifies w
    ensures w.Valid() && w.fs == old(w.fs) && w.links == old(w.links)
    ensures w.trace == old(w.trace) +
                       [Prompt(WithDefaultPromptText("Enter name prefix", "Infrabox")),
                        Prompt(WithDefaultPromptText("Enter Azure location", "westeurope")),
                        Prompt(WithDefaultPromptText("Enter DNS zone name", "Infrabox-" + env + ".com")),
                        Prompt(WithDefaultPromptText("Enter admin username", "azureuser")),
                        Prompt(WithDefaultPromptText("Enter path to SSH public key", "~/.ssh/id_rsa_infrabox.pub"))]
    ensures namePrefix == WithDefaultAnswer(w.answers(|Prompts(old(w.trace))|), "Infrabox")
    ensures location == WithDefaultAnswer(w.answers(|Prompts(old(w.trace))| + 1), "westeurope")
    ensures dnsZoneName == WithDefaultAnswer(w.answers(|Prompts(old(w.trace))| + 2), "Infrabox-" + env + ".com")
    ensures adminUsername == WithDefaultAnswer(w.answers(|Prompts(old(w.trace))| + 3), "azureuser")
    ensures sshPublicKeyPath == WithDefaultAnswer(w.answers(|Prompts(old(w.trace))| + 4), "~/.ssh/id_rsa_infrabox.pub")
  {
    ghost var t0 := w.trace;
    namePrefix := PromptWithDefault(w, "Enter name prefix", "Infrabox");
    PromptsAppendOne(t0, WithDefaultPromptText("Enter name prefix", "Infrabox"));
    ghost var t1 := w.trace;
    location := PromptWithDefault(w, "Enter Azure location", "westeurope");
    PromptsAppendOne(t1, WithDefaultPromptText("Enter Azure location", "westeurope"));
    ghost var t2 := w.trace;
    dnsZoneName := PromptWithDefault(w, "Enter DNS zone name", "Infrabox-" + env + ".com");
    PromptsAppendOne(t2, WithDefaultPromptText("Enter DNS zone name", "Infrabox-" + env + ".com"));
    ghost var t3 := w.trace;
    adminUsername := PromptWithDefault(w, "Enter admin username", "azureuser");
    PromptsAppendOne(t3, WithDefaultPromptText("Enter admin username", "azureuser"));
    sshPublicKeyPath := PromptWithDefault(w, "Enter path to SSH public key", "~/.ssh/id_rsa_infrabox.pub");
    AppendFive(t0, Prompt(WithDefaultPromptText("Enter name prefix", "Infrabox")),
               Prompt(WithDefaultPromptText("Enter Azure location", "westeurope")),
               Prompt(WithDefaultPromptText("Enter DNS zone name", "Infrabox-" + env + ".com")),
               Prompt(WithDefaultPromptText("Enter admin username", "azureuser")),
               Prompt(WithDefaultPromptText("Enter path to SSH public key", "~/.ssh/id_rsa_infrabox.pub")));
  }

  lemma AppendFive(t: seq<Event>, a: Event, b: Event, c: Event, d: Event, e: Event)
    ensures t + [a] + [b] + [c] + [d] + [e] == t + [a, b, c, d, e]
  {
  }

  /** The five prompts written out. */
  lemma PromptTextsTable(env: string)
    ensures PromptEvents(PromptTexts(env)) ==
              [Prompt(WithDefaultPromptText("Enter name prefix", "Infrabox")),
               Prompt(WithDefaultPromptText("Enter Azure location", "westeurope")),
               Prompt(WithDefaultPromptText("Enter DNS zone name", "Infrabox-" + env + ".com")),
               Prompt(WithDefaultPromptText("Enter admin username", "azureuser")),
               Prompt(WithDefaultPromptText("Enter path to SSH public key", "~/.ssh/id_rsa_infrabox.pub"))]
  {
  }

  /** The context for five consecutive answers, written out. */
  lemma TemplateContextTable(env: string, answers: nat -> string, n: nat)
    ensures TemplateContext(env, AnswersFrom(answers, n)) ==
              map["name_prefix" := WithDefaultAnswer(answers(n), "Infrabox"),
                  "environment" := env,
                  "location" := WithDefaultAnswer(answers(n + 1), "westeurope"),
                  "dns_zone_name" := WithDefaultAnswer(answers(n + 2), "Infrabox-" + env + ".com"),
                  "admin_username" := WithDefaultAnswer(answers(n + 3), "azureuser"),
                  "ssh_public_key_path" := WithDefaultAnswer(answers(n + 4), "~/.ssh/id_rsa_infrabox.pub")]
  {
    var raw := AnswersFrom(answers, n);
    assert raw == [answers(n), answers(n + 1), answers(n + 2), answers(n + 3), answers(n + 4)];
  }

  /** Everything run does after the setup: prompts, the three files, init and validate. */
  method ConfigureAt(w: World, env: string, envPath: Path, dryRun: bool)
    requires w.Valid()
    modifies w
    ensures w.Valid() && w.links == old(w.links)
    ensures w.fs == if dryRun then old(w.fs) else old(w.fs) + TemplateFiles(envPath)
    ensures w.trace == old(w.trace)
                       + ConfigureEffects(PromptTexts(env), envPath,
                                          TemplateContext(env, AnswersFrom(w.answers, |Prompts(old(w.trace))|)), dryRun)
  {
    ghost var t0 := w.trace;
    var variables := AskVariables(w, env);
    ghost var t1 := w.trace;
    w.RenderTemplate(VariablesTf, envPath, variables, dryRun);
    w.RenderTemplate(MainTf, envPath, variables, dryRun);
    w.RenderTemplate(OutputsTf, envPath, variables, dryRun);
    AppendThree(t1, Render(VariablesTf, envPath, variables, dryRun), Render(MainTf, envPath, variables, dryRun),
                Render(OutputsTf, envPath, variables, dryRun));
    ghost var t2 := w.trace;
    var _ := TerraformInit(w, envPath, dryRun);
    var _ := TerraformValidate(w, envPath, dryRun);
    AppendAssociates(t0, PromptEvents(PromptTexts(env)), RenderEvents(envPath, variables, dryRun),
                     RunEffects(InitArgv, envPath, dryRun, true), RunEffects(ValidateArgv, envPath, dryRun, true));
  }

  lemma AppendThree(t: seq<Event>, a: Event, b: Event, c: Event)
    ensures t + [a] + [b] + [c] == t + [a, b, c]
  {
  }

  lemma AppendAssociates(t: seq<Event>, p: seq<Event>, r: seq<Event>, x: seq<Event>, y: seq<Event>)
    ensures t + p + r + x + y == t + (p + r + x + y)
  {
  }

  /**
   * run: an existing directory aborts with nothing done; otherwise the
   * directory and link are set up (not in dry-run), and then the variables are
   * asked for, the files rendered and terraform initialised and validated.
   */
  method Run(w: World, arg: string, dryRun: bool) returns (outcome: InitOutcome)
    requires w.Valid()
    modifies w
    ensures w.Valid()
    ensures EnvPathFor(EnvironmentName(arg)) in old(w.fs) ==>
              outcome == AlreadyExists
              && w.fs == old(w.fs) && w.links == old(w.links) && w.trace == old(w.trace)
    ensures EnvPathFor(EnvironmentName(arg)) !in old(w.fs) ==>
              InitializedAs(w, EnvironmentName(arg), dryRun, outcome,
                            old(w.fs), old(w.links), old(w.trace))
  {
    var environment := EnvironmentName(arg);
    var envPath := Child(EnvironmentsDir, environment);
    if envPath in w.fs {
      return AlreadyExists;
    }
    outcome := InitializeAt(w, environment, dryRun);
  }

  /**
   * Running initialize twice with the same argument outside dry-run: the second
   * run finds the directory the first one made and aborts, so the state is
   * exactly what the first run left.
   */
  method RunTwice(w: World, arg: string) returns (first: InitOutcome, second: InitOutcome)
    requires w.Valid()
    modifies w
    ensures w.Valid() && second == AlreadyExists
    ensures EnvPathFor(EnvironmentName(arg)) in old(w.fs) ==>
              first == AlreadyExists && w.fs == old(w.fs) && w.links == old(w.links) && w.trace == old(w.trace)
    ensures EnvPathFor(EnvironmentName(arg)) !in old(w.fs) ==>
              InitializedAs(w, EnvironmentName(arg), false, first, old(w.fs), old(w.links), old(w.trace))
  {
    InitializeCreatesEnvironment(EnvironmentName(arg), SharedProvider in w.fs);
    first := Run(w, arg, false);
    ghost var fs1, links1, trace1 := w.fs, w.links, w.trace;
    second := Run(w, arg, false);
    assert w.fs == fs1 && w.links == links1 && w.trace == trace1;
  }

  /**
   * The state after run on a directory that did not exist, given the state
   * before: the outcome, the effects in order, the paths created and the link.
   */
  ghost predicate InitializedAs(w: World, env: string, dryRun: bool, outcome: InitOutcome,
                                fs0: set<Path>, links0: map<Path, Path>, trace0: seq<Event>)
    reads w
  {
    var dir := EnvPathFor(env);
    && outcome == (if !dryRun && SharedProvider !in fs0 then ProviderMissing else Initialized(!dryRun))
    && w.trace == trace0 + InitializeEffects(env, dryRun, SharedProvider in fs0, ProviderLink(dir) in fs0,
                                             AnswersFrom(w.answers, |Prompts(trace0)|))
    && w.fs == fs0 + InitializedPaths(dir, dryRun, SharedProvider in fs0)
    && w.links == if !dryRun && SharedProvider in fs0 && ProviderLink(dir) !in fs0
                  then links0[ProviderLink(dir) := SharedProvider]
                  else links0
  }

  /** run from the existence check on. */
  method InitializeAt(w: World, environment: string, dryRun: bool) returns (outcome: InitOutcome)
    requires w.Valid() && EnvPathFor(environment) !in w.fs
    modifies w
    ensures w.Valid()
    ensures InitializedAs(w, environment, dryRun, outcome, old(w.fs), old(w.links), old(w.trace))
  {
    var envPath := Child(EnvironmentsDir, environment);
    ghost var t0, fs0 := w.trace, w.fs;
    ghost var sharedExists, linkExisted := SharedProvider in w.fs, ProviderLink(envPath) in w.fs;
    ghost var n := |Prompts(t0)|;
    if !dryRun {
      var provided := CreateEnvironmentDir(w, environment, envPath);
      if !provided {
        return ProviderMissing;
      }
    }
    ghost var t1 := w.trace;
    ghost var setup := if dryRun then [] else SetupEffects(envPath, !linkExisted);
    assert t1 == t0 + setup && |Prompts(t1)| == n;
    ghost var raw := AnswersFrom(w.answers, n);
    ghost var configure := ConfigureEffects(PromptTexts(environment), envPath, TemplateContext(environment, raw), dryRun);
    InitializeEffectsSplit(environment, dryRun, sharedExists, linkExisted, raw);
    ConfigureAt(w, environment, envPath, dryRun);
    assert w.trace == t1 + configure;
    ConcatAssociates(t0, setup, configure);
    if dryRun {
      assert w.fs == fs0 + {};
    } else {
      UnionAssociates(fs0, Lineage(envPath), {ProviderLink(envPath)}, TemplateFiles(envPath));
    }
    outcome := Initialized(!dryRun);
  }

  lemma ConcatAssociates(a: seq<Event>, b: seq<Event>, c: seq<Event>)
    ensures a + b + c == a + (b + c)
  {
  }

  lemma UnionAssociates(a: set<Path>, b: set<Path>, c: set<Path>, d: set<Path>)
    ensures a + b + c + d == a + (b + (c + d))
  {
  }

  /** When run gets past the setup, its effects are the setup followed by the configuration. */
  lemma InitializeEffectsSplit(env: string, dryRun: bool, sharedExists: bool, linkExisted: bool, raw: seq<string>)
    requires |raw| == 5 && (dryRun || sharedExists)
    ensures InitializeEffects(env, dryRun, sharedExists, linkExisted, raw) ==
              (if dryRun then [] else SetupEffects(EnvPathFor(env), !linkExisted))
              + ConfigureEffects(PromptTexts(env), EnvPathFor(env), TemplateContext(env, raw), dryRun)
  {
    if dryRun {
      assert [] + ConfigureEffects(PromptTexts(env), EnvPathFor(env), TemplateContext(env, raw), dryRun)
             == ConfigureEffects(PromptTexts(env), EnvPathFor(env), TemplateContext(env, raw), dryRun);
    }
  }

  /**
   * The setup of a run that is not a dry run: mkdir(parents=True), then
   * create_provider_symlink, which fails when the shared provider is missing.
   */
  method CreateEnvironmentDir(w: World, env: string, envPath: Path) returns (provided: bool)
    requires w.Valid() && envPath == EnvPathFor(env) && envPath !in w.fs
    modifies w
    ensures w.Valid()
    ensures provided == (SharedProvider in old(w.fs))
    ensures w.fs == old(w.fs) + Lineage(envPath) + (if provided then {ProviderLink(envPath)} else {})
    ensures w.links == if provided && ProviderLink(envPath) !in old(w.fs)
                       then old(w.links)[ProviderLink(envPath) := SharedProvider]
                       else old(w.links)
    ensures w.trace == old(w.trace) + (if provided then SetupEffects(envPath, ProviderLink(envPath) !in old(w.fs))
                                       else [MakeDirs(envPath)])
    ensures Prompts(w.trace) == Prompts(old(w.trace))
  {
    ghost var t0 := w.trace;
    var _ := w.Mkdir(envPath);
    SharedProviderOutsideEnvironments(env);
    LineageHasNoLongerPath(envPath, ProviderLink(envPath));
    var linked := CreateProviderSymlink(w, envPath, false);
    provided := linked.Success?;
    if provided {
      SetupProjections(envPath, ProviderLink(envPath) !in old(w.fs));
    } else {
      PromptsOfOne(MakeDirs(envPath));
    }
    PromptsConcat(t0, w.trace[|t0|..]);
    assert w.trace == t0 + w.trace[|t0|..];
  }
}
