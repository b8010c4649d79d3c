/**
 * cli/utils.py: input sanitisers, the environment allow-list and path
 * resolution, the command runner, the prompt rules and the shared
 * provider symlink.  The CIDR overlap check lives in module Cidr.
 */
module Utils {
  import opened Wrappers
  import opened Text
  import opened World

  // ----- sanitisers -----

  /** Membership in the class [\w\-]. */
  predicate IsSafeChar(c: char)
  {
    IsWordChar(c) || c == '-'
  }

  /** sanitize_input: strip, then delete every character outside [\w\-]. */
  function SanitizeInput(value: string): (r: string)
    ensures forall i :: 0 <= i < |r| ==> IsSafeChar(r[i])
    ensures IsSubsequence(r, value)
    ensures r == Filter(IsSafeChar, value)
  {
    FilterStrip(IsSafeChar, value);
    FilterIsSubsequence(IsSafeChar, value);
    Filter(IsSafeChar, Strip(value))
  }

  /** Nothing but the unsafe characters is deleted: each safe character keeps every occurrence. */
  lemma SanitizeInputKeepsSafe(value: string, c: char)
    ensures multiset(SanitizeInput(value))[c] == if IsSafeChar(c) then multiset(value)[c] else 0
  {
    FilterCounts(IsSafeChar, value, c);
  }

  lemma SanitizeInputIdempotent(value: string)
    ensures SanitizeInput(SanitizeInput(value)) == SanitizeInput(value)
  {
    FilterIdempotent(IsSafeChar, value);
  }

  /** A string already made of safe characters is left alone. */
  lemma SanitizeInputFixes(value: string)
    requires forall i :: 0 <= i < |value| ==> IsSafeChar(value[i])
    ensures SanitizeInput(value) == value
  {
    FilterKeepsAll(IsSafeChar, value);
  }

  /** The character test of sanitize_env_name: isalnum(), '-' or '_'. */
  predicate IsEnvNameChar(c: char)
  {
    IsAlnum(c) || c == '-' || c == '_'
  }

  /** sanitize_env_name: keep alphanumerics, '-' and '_', then lowercase. */
  function SanitizeEnvName(name: string): (r: string)
    ensures |r| <= |name|
    ensures forall i :: 0 <= i < |r| ==> IsEnvNameChar(r[i]) && !IsUpper(r[i])
  {
    Lower(Filter(IsEnvNameChar, name))
  }

  lemma SanitizeEnvNameIdempotent(name: string)
    ensures SanitizeEnvName(SanitizeEnvName(name)) == SanitizeEnvName(name)
  {
    var r := SanitizeEnvName(name);
    FilterKeepsAll(IsEnvNameChar, r);
    forall i | 0 <= i < |r| ensures LowerChar(r[i]) == r[i] {
    }
    assert Lower(r) == r;
  }

  /** Both sanitisers agree up to case: the env-name one is the lowercased input one. */
  lemma SanitizersAgree(name: string)
    ensures SanitizeEnvName(name) == Lower(SanitizeInput(name))
    ensures SanitizeEnvName(name) == SanitizeInput(Lower(name))
  {
    FilterSame(IsEnvNameChar, IsSafeChar, name);
    FilterLower(IsSafeChar, name);
    FilterStrip(IsSafeChar, Lower(name));
  }

  // ----- environments -----

  const ValidEnvironments: set<string> := {"dev", "stage"}

  datatype EnvError = InvalidEnvironment(env: string) | EnvironmentNotFound(env: string)

  /** validate_environment: raises ValueError unless allow_new or env is allow-listed. */
  function ValidateEnvironment(env: string, allowNew: bool): (o: Outcome<EnvError>)
    ensures o.Fail? <==> !allowNew && env !in ValidEnvironments
    ensures o.Fail? ==> o.error == InvalidEnvironment(env)
  {
    if !allowNew && env !in ValidEnvironments then Fail(InvalidEnvironment(env)) else Pass
  }

  /** Every allow-listed name is a fixed point of both sanitisers: it is a safe path component. */
  lemma ValidatedNamesAreSanitized(env: string)
    requires ValidateEnvironment(env, false).Pass?
    ensures SanitizeInput(env) == env && SanitizeEnvName(env) == env
    ensures env != "" && forall i :: 0 <= i < |env| ==> IsSafeChar(env[i])
  {
    assert |env| >= 3 && forall i :: 0 <= i < |env| ==> IsSafeChar(env[i]) && !IsUpper(env[i]) by {
      if env == "dev" {
        assert env[0] == 'd' && env[1] == 'e' && env[2] == 'v';
      } else {
        assert env[0] == 's' && env[1] == 't' && env[2] == 'a' && env[3] == 'g' && env[4] == 'e';
      }
    }
    SafeLowerNameIsFixed(env);
  }

  /** A name of safe, non-upper-case characters passes both sanitisers unchanged. */
  lemma SafeLowerNameIsFixed(env: string)
    requires forall i :: 0 <= i < |env| ==> IsSafeChar(env[i]) && !IsUpper(env[i])
    ensures SanitizeInput(env) == env && SanitizeEnvName(env) == env
  {
    FilterKeepsAll(IsSafeChar, env);
    FilterKeepsAll(IsEnvNameChar, env);
    assert Lower(env) == env;
  }

  // INFRA_ROOT stands for the repository directory; ENVIRONMENTS_DIR.parent is INFRA_ROOT.
  const InfraRoot: Path := Path(["InfraBox"])
  const EnvironmentsDir: Path := Child(InfraRoot, "environments")
  const SharedProvider: Path := Child(Child(InfraRoot, "Shared"), "provider.tf")

  function ProviderLink(envPath: Path): Path
  {
    Child(envPath, "provider.tf")
  }

  /**
   * get_env_path: the allow-list check comes first (ValueError), then the
   * existence check (sys.exit(1)); otherwise ENVIRONMENTS_DIR/env.
   */
  method GetEnvPath(w: World, env: string) returns (r: Result<Path, EnvError>)
    ensures env !in ValidEnvironments ==> r == Failure(InvalidEnvironment(env))
    ensures env in ValidEnvironments && Child(EnvironmentsDir, env) !in w.fs ==>
                  r == Failure(EnvironmentNotFound(env))
    ensures env in ValidEnvironments && Child(EnvironmentsDir, env) in w.fs ==>
                  r == Success(Child(EnvironmentsDir, env))
  {
    var valid := ValidateEnvironment(env, false);
    if valid.Fail? {
      return Failure(valid.error);
    }
    var envPath := Child(EnvironmentsDir, env);
    if envPath !in w.fs {
      return Failure(EnvironmentNotFound(env));
    }
    r := Success(envPath);
  }

  // ----- command runner -----

  datatype CompletedProcess = CompletedProcess(returncode: int)

  /** What run_cmd adds to the trace. */
  function RunEffects(cmd: seq<string>, cwd: Path, dryRun: bool, captureOutput: bool): seq<Event>
  {
    if dryRun then [] else [Exec(cmd, cwd, captureOutput)]
  }

  /** run_cmd executes nothing in dry-run and exactly the given command otherwise. */
  lemma RunEffectsExecuteOnce(cmd: seq<string>, cwd: Path, dryRun: bool, captureOutput: bool)
    ensures Commands(RunEffects(cmd, cwd, dryRun, captureOutput)) == if dryRun then [] else [cmd]
    ensures Prompts(RunEffects(cmd, cwd, dryRun, captureOutput)) == []
  {
    if !dryRun {
      assert Commands(RunEffects(cmd, cwd, dryRun, captureOutput)) == [cmd] + Commands([]);
    }
  }

  /** Appending run_cmd's effects to any trace adds one command (none in dry-run) and no prompt. */
  lemma RunEffectsAppend(t: seq<Event>, cmd: seq<string>, cwd: Path, dryRun: bool, captureOutput: bool)
    ensures Commands(t + RunEffects(cmd, cwd, dryRun, captureOutput)) ==
              Commands(t) + (if dryRun then [] else [cmd])
    ensures Prompts(t + RunEffects(cmd, cwd, dryRun, captureOutput)) == Prompts(t)
  {
    CommandsConcat(t, RunEffects(cmd, cwd, dryRun, captureOutput));
    PromptsConcat(t, RunEffects(cmd, cwd, dryRun, captureOutput));
    RunEffectsExecuteOnce(cmd, cwd, dryRun, captureOutput);
  }

  /** run_cmd: in dry-run returns None; otherwise one subprocess.run with shell=False. */
  method RunCmd(w: World, cmd: seq<string>, cwd: Path, dryRun: bool, captureOutput: bool)
    returns (result: Option<CompletedProcess>)
    requires w.Valid()
    modifies w
    ensures w.Valid() && w.fs == old(w.fs) && w.links == old(w.links)
    ensures w.trace == old(w.trace) + RunEffects(cmd, cwd, dryRun, captureOutput)
    ensures result.None? <==> dryRun
    ensures result.Some? ==> result.value.returncode == w.exitCodes(|Commands(old(w.trace))|)
  {
    if dryRun {
      return None;
    }
    var code := w.Spawn(cmd, cwd, captureOutput);
    result := Some(CompletedProcess(code));
  }

  // ----- prompts -----

  /** The decision of prompt_input: the stripped answer, or the default when that is empty. */
  function InputAnswer(raw: string, default: string): (r: string)
    ensures IsBlank(raw) ==> r == default
    ensures !IsBlank(raw) ==> r != "" && IsTrimmed(r) && r == Strip(raw)
  {
    StripEmptyIffBlank(raw);
    var response := Strip(raw);
    if response != "" then response else default
  }

  /**
   * The decision of prompt_with_default: the default, unsanitised, for a blank
   * answer; otherwise the sanitised answer, which may be "" rather than the default.
   */
  function WithDefaultAnswer(raw: string, default: string): (r: string)
    ensures IsBlank(raw) ==> r == default
    ensures !IsBlank(raw) ==> r == Filter(IsSafeChar, raw)
  {
    StripEmptyIffBlank(raw);
    FilterStrip(IsSafeChar, raw);
    var userInput := Strip(raw);
    if userInput != "" then SanitizeInput(userInput) else default
  }

  /** A non-blank answer of nothing but unsafe characters gives "", not the default. */
  lemma WithDefaultAnswerCanBeEmpty(default: string)
    ensures WithDefaultAnswer("!?", default) == ""
  {
    assert "!?"[0] == '!' && !IsSpace('!');
    assert Filter(IsSafeChar, "!?") == [] by {
      FilterDropsAll(IsSafeChar, "!?");
    }
  }

  function ConfirmationSuffix(default: bool): (s: string)
    ensures s == "[Y/n]" <==> default
    ensures s == "[y/N]" <==> !default
  {
    if default then "[Y/n]" else "[y/N]"
  }

  /** The decision of prompt_user_confirmation. */
  function ConfirmationAnswer(raw: string, default: bool): (yes: bool)
    ensures IsBlank(raw) ==> yes == default
    ensures !IsBlank(raw) ==> (yes <==> Lower(Strip(raw)) == "y" || Lower(Strip(raw)) == "yes")
  {
    StripEmptyIffBlank(raw);
    var answer := Lower(Strip(raw));
    if answer == "" then default else answer == "y" || answer == "yes"
  }

  /**
   * Whatever whitespace surrounds it, a non-empty trimmed answer confirms
   * exactly when it is "y" or "yes" in any mix of cases; the default plays no part.
   */
  lemma ConfirmationOfPaddedAnswer(w1: string, word: string, w2: string, default: bool)
    requires IsBlank(w1) && IsBlank(w2) && IsTrimmed(word) && word != ""
    ensures ConfirmationAnswer(w1 + word + w2, default) <==> Lower(word) in {"y", "yes"}
  {
    StripPadded(w1, word, w2);
    StripEmptyIffBlank(w1 + word + w2);
  }

  const DefaultConfirmationMessage := "INFRABOX: Proceed?"

  function InputPromptText(prompt: string, default: string): string
  {
    prompt + " [" + default + "]: "
  }

  function WithDefaultPromptText(promptText: string, default: string): string
  {
    promptText + " [default: " + default + "]: "
  }

  function ConfirmationPromptText(message: string, default: bool): string
  {
    message + " " + ConfirmationSuffix(default) + ": "
  }

  /** prompt_input: one prompt, answered by the next line the user types. */
  method PromptInput(w: World, prompt: string, default: string) returns (r: string)
    requires w.Valid()
    modifies w
    ensures w.Valid() && w.fs == old(w.fs) && w.links == old(w.links)
    ensures w.trace == old(w.trace) + [Prompt(InputPromptText(prompt, default))]
    ensures r == InputAnswer(w.answers(|Prompts(old(w.trace))|), default)
  {
    var line := w.ReadLine(InputPromptText(prompt, default));
    var response := Strip(line);
    r := if response != "" then response else default;
  }

  /** prompt_with_default: one prompt, answered by the next line the user types. */
  method PromptWithDefault(w: World, promptText: string, default: string) returns (r: string)
    requires w.Valid()
    modifies w
    ensures w.Valid() && w.fs == old(w.fs) && w.links == old(w.links)
    ensures w.trace == old(w.trace) + [Prompt(WithDefaultPromptText(promptText, default))]
    ensures r == WithDefaultAnswer(w.answers(|Prompts(old(w.trace))|), default)
  {
    var line := w.ReadLine(WithDefaultPromptText(promptText, default));
    var userInput := Strip(line);
    r := if userInput != "" then SanitizeInput(userInput) else default;
  }

  /** prompt_user_confirmation: one prompt, answered by the next line the user types. */
  method PromptUserConfirmation(w: World, message: string, default: bool) returns (yes: bool)
    requires w.Valid()
    modifies w
    ensures w.Valid() && w.fs == old(w.fs) && w.links == old(w.links)
    ensures w.trace == old(w.trace) + [Prompt(ConfirmationPromptText(message, default))]
    ensures yes == ConfirmationAnswer(w.answers(|Prompts(old(w.trace))|), default)
  {
    var line := w.ReadLine(ConfirmationPromptText(message, default));
    var answer := Lower(Strip(line));
    if answer == "" {
      return default;
    }
    yes := answer == "y" || answer == "yes";
  }

  // ----- provider symlink -----

  datatype LinkStatus = DryRunSkipped | LinkCreated | LinkAlreadyExists

  datatype SymlinkError = SharedProviderNotFound

  /**
   * create_provider_symlink: FileNotFoundError when Shared/provider.tf is
   * missing (checked before the dry-run branch); nothing in dry-run; an
   * existing link path is a warning and changes nothing.
   */
  method CreateProviderSymlink(w: World, envPath: Path, dryRun: bool)
    returns (r: Result<LinkStatus, SymlinkError>)
    requires w.Valid()
    modifies w
    ensures w.Valid()
    ensures SharedProvider !in old(w.fs) ==> r == Failure(SharedProviderNotFound)
    ensures SharedProvider in old(w.fs) && dryRun ==> r == Success(DryRunSkipped)
    ensures SharedProvider in old(w.fs) && !dryRun && ProviderLink(envPath) in old(w.fs) ==>
                  r == Success(LinkAlreadyExists)
    ensures SharedProvider in old(w.fs) && !dryRun && ProviderLink(envPath) !in old(w.fs) ==>
                  r == Success(LinkCreated)
    ensures ProviderLink(envPath) in old(w.links) ==> r != Success(LinkCreated)
    ensures r == Success(LinkCreated) ==>
                  w.fs == old(w.fs) + {ProviderLink(envPath)}
                  && w.links == old(w.links)[ProviderLink(envPath) := SharedProvider]
                  && w.trace == old(w.trace) + [Symlink(ProviderLink(envPath), SharedProvider)]
    ensures r != Success(LinkCreated) ==>
                  w.fs == old(w.fs) && w.links == old(w.links) && w.trace == old(w.trace)
  {
    var targetSymlinkPath := ProviderLink(envPath);
    if SharedProvider !in w.fs {
      return Failure(SharedProviderNotFound);
    }
    if dryRun {
      return Success(DryRunSkipped);
    }
    var created := w.SymlinkTo(targetSymlinkPath, SharedProvider);
    r := if created then Success(LinkCreated) else Success(LinkAlreadyExists);
  }
}
