/**
 * cli/commands/destroy.py: resolve the environment, then init, validate and
 * a destroy plan; apply with -destroy only when the plan reports changes and
 * the user confirms.
 */
module DestroyCommand {
  import opened Wrappers
  import opened World
  import opened Utils
  import opened TerraformUtils

  /** prompt_user_confirmation() with its default message and default answer (no). */
  const ConfirmationPrompt: string := ConfirmationPromptText(DefaultConfirmationMessage, false)

  /**
   * What the handler adds to the trace once get_env_path has returned, given
   * the plan's exit code and the line typed at the confirmation prompt.  In
   * dry-run the "echoed" apply of terraform_state_has_changes adds nothing.
   */
  function DestroyEffects(envPath: Path, dryRun: bool, planCode: int, answer: string): seq<Event>
  {
    RunEffects(InitArgv, envPath, dryRun, true)
    + RunEffects(ValidateArgv, envPath, dryRun, true)
    + RunEffects(PlanArgv(true), envPath, dryRun, false)
    + (if dryRun then [] else DestroyTail(envPath, planCode, answer))
  }

  /**
   * The commands run: nothing in dry-run; otherwise init, validate, the destroy
   * plan, and then one apply with -destroy exactly when the plan exits with 2
   * and the answer confirms.
   */
  lemma DestroyCommands(envPath: Path, dryRun: bool, planCode: int, answer: string)
    ensures Commands(DestroyEffects(envPath, dryRun, planCode, answer)) ==
              if dryRun then []
              else [InitArgv, ValidateArgv, PlanArgv(true)]
                   + (if planCode == 2 && ConfirmationAnswer(answer, false) then [ApplyArgv(true)] else [])
  {
    if !dryRun {
      var tail := DestroyTail(envPath, planCode, answer);
      var e1, e2, e3 := Exec(InitArgv, envPath, true), Exec(ValidateArgv, envPath, true), Exec(PlanArgv(true), envPath, false);
      assert DestroyEffects(envPath, dryRun, planCode, answer) == [e1] + [e2] + [e3] + tail;
      CommandsConcat([e1] + [e2] + [e3], tail);
      CommandsConcat([e1] + [e2], [e3]);
      CommandsConcat([e1], [e2]);
      CommandsOfOne(e1);
      CommandsOfOne(e2);
      CommandsOfOne(e3);
      DestroyTailCommands(envPath, planCode, answer);
      assert [InitArgv] + [ValidateArgv] + [PlanArgv(true)] == [InitArgv, ValidateArgv, PlanArgv(true)];
    }
  }

  /** The effects split into the three fixed commands and what follows the plan. */
  lemma DestroyEffectsSteps(envPath: Path, dryRun: bool, planCode: int, answer: string)
    ensures DestroyEffects(envPath, dryRun, planCode, answer) ==
              if dryRun then []
              else [Exec(InitArgv, envPath, true), Exec(ValidateArgv, envPath, true), Exec(PlanArgv(true), envPath, false)]
                   + DestroyTail(envPath, planCode, answer)
  {
  }

  /** What follows the plan when it is not a dry run. */
  function DestroyTail(envPath: Path, planCode: int, answer: string): seq<Event>
  {
    if PlanStatusOf(planCode) == ChangesPending then
      [Prompt(ConfirmationPrompt)]
      + (if ConfirmationAnswer(answer, false) then [Exec(ApplyArgv(true), envPath, false)] else [])
    else []
  }

  lemma DestroyTailCommands(envPath: Path, planCode: int, answer: string)
    ensures Commands(DestroyTail(envPath, planCode, answer)) ==
              if planCode == 2 && ConfirmationAnswer(answer, false) then [ApplyArgv(true)] else []
    ensures Prompts(DestroyTail(envPath, planCode, answer)) ==
              if planCode == 2 then [ConfirmationPrompt] else []
  {
    if planCode == 2 {
      var rest := if ConfirmationAnswer(answer, false) then [Exec(ApplyArgv(true), envPath, false)] else [];
      CommandsConcat([Prompt(ConfirmationPrompt)], rest);
      PromptsConcat([Prompt(ConfirmationPrompt)], rest);
      CommandsOfOne(Prompt(ConfirmationPrompt));
      PromptsOfOne(Prompt(ConfirmationPrompt));
      CommandsOfOne(Exec(ApplyArgv(true), envPath, false));
      PromptsOfOne(Exec(ApplyArgv(true), envPath, false));
    }
  }

  /** The confirmation prompt is shown once after a plan that reports changes, and never otherwise. */
  lemma DestroyPrompts(envPath: Path, dryRun: bool, planCode: int, answer: string)
    ensures Prompts(DestroyEffects(envPath, dryRun, planCode, answer)) ==
              if !dryRun && planCode == 2 then [ConfirmationPrompt] else []
  {
    if !dryRun {
      var tail := DestroyTail(envPath, planCode, answer);
      var e1, e2, e3 := Exec(InitArgv, envPath, true), Exec(ValidateArgv, envPath, true), Exec(PlanArgv(true), envPath, false);
      assert DestroyEffects(envPath, dryRun, planCode, answer) == [e1] + [e2] + [e3] + tail;
      PromptsConcat([e1] + [e2] + [e3], tail);
      PromptsConcat([e1] + [e2], [e3]);
      PromptsConcat([e1], [e2]);
      PromptsOfOne(e1);
      PromptsOfOne(e2);
      PromptsOfOne(e3);
      DestroyTailCommands(envPath, planCode, answer);
    }
  }

  /**
   * Apply runs at most once, always with -destroy, and only when the plan
   * reported changes, the user confirmed and the run is not a dry run.
   */
  lemma DestroyAppliesOnlyOnConsent(envPath: Path, dryRun: bool, planCode: int, answer: string)
    ensures var cs := Commands(DestroyEffects(envPath, dryRun, planCode, answer));
            && (ApplyArgv(true) in cs <==> !dryRun && planCode == 2 && ConfirmationAnswer(answer, false))
            && ApplyArgv(false) !in cs
            && multiset(cs)[ApplyArgv(true)] <= 1
  {
    DestroyCommands(envPath, dryRun, planCode, answer);
    ApplyOnlyWhenConsented(dryRun, planCode == 2 && ConfirmationAnswer(answer, false));
  }

  /** The command lines of destroy, with the consent abstracted to one bool. */
  lemma ApplyOnlyWhenConsented(dryRun: bool, consent: bool)
    ensures var cs := if dryRun then []
                      else [InitArgv, ValidateArgv, PlanArgv(true)] + (if consent then [ApplyArgv(true)] else []);
            && (ApplyArgv(true) in cs <==> !dryRun && consent)
            && ApplyArgv(false) !in cs
            && multiset(cs)[ApplyArgv(true)] <= 1
  {
    ArgvsDistinct(true, false);
    ArgvsDistinct(false, true);
    ArgvsDistinct(true, true);
    var pre := [InitArgv, ValidateArgv, PlanArgv(true)];
    assert ApplyArgv(true) !in pre && ApplyArgv(false) !in pre && multiset(pre)[ApplyArgv(true)] == 0;
    if !dryRun && consent {
      assert multiset(pre + [ApplyArgv(true)]) == multiset(pre) + multiset{ApplyArgv(true)};
    }
  }

  /**
   * run: get_env_path first, so an invalid or missing environment leaves the
   * trace untouched; then the effects above.  Nothing here touches the filesystem.
   */
  method Run(w: World, environment: string, dryRun: bool) returns (outcome: Outcome<EnvError>)
    requires w.Valid()
    modifies w
    ensures w.Valid() && w.fs == old(w.fs) && w.links == old(w.links)
    ensures environment !in ValidEnvironments ==> outcome == Fail(InvalidEnvironment(environment))
    ensures environment in ValidEnvironments && Child(EnvironmentsDir, environment) !in old(w.fs) ==>
              outcome == Fail(EnvironmentNotFound(environment))
    ensures environment in ValidEnvironments && Child(EnvironmentsDir, environment) in old(w.fs) ==>
              outcome == Pass
    ensures outcome.Fail? ==> w.trace == old(w.trace)
    ensures outcome.Pass? ==>
              w.trace == old(w.trace)
                         + DestroyEffects(Child(EnvironmentsDir, environment), dryRun,
                                          w.exitCodes(|Commands(old(w.trace))| + 2),
                                          w.answers(|Prompts(old(w.trace))|))
  {
    var resolved := GetEnvPath(w, environment);
    if resolved.Failure? {
      return Fail(resolved.error);
    }
    DestroyAt(w, resolved.value, dryRun);
    outcome := Pass;
  }

  /** The body of run once the environment directory is known. */
  method DestroyAt(w: World, envPath: Path, dryRun: bool)
    requires w.Valid()
    modifies w
    ensures w.Valid() && w.fs == old(w.fs) && w.links == old(w.links)
    ensures w.trace == old(w.trace)
                       + DestroyEffects(envPath, dryRun, w.exitCodes(|Commands(old(w.trace))| + 2),
                                        w.answers(|Prompts(old(w.trace))|))
  {
    ghost var t0 := w.trace;
    var _ := TerraformInit(w, envPath, dryRun);
    RunEffectsAppend(t0, InitArgv, envPath, dryRun, true);
    ghost var t1 := w.trace;
    var _ := TerraformValidate(w, envPath, dryRun);
    RunEffectsAppend(t1, ValidateArgv, envPath, dryRun, true);
    ghost var t2 := w.trace;
    var changes := TerraformStateHasChanges(w, envPath, true, dryRun);
    RunEffectsAppend(t2, PlanArgv(true), envPath, dryRun, false);
    ghost var t3 := w.trace;
    ghost var planCode := w.exitCodes(|Commands(t0)| + 2);
    ghost var answer := w.answers(|Prompts(t0)|);
    assert changes <==> !dryRun && PlanStatusOf(planCode) == ChangesPending;
    assert Prompts(t3) == Prompts(t0);
    if changes {
      // `changes and prompt_user_confirmation()`: the prompt only follows a plan with changes
      var confirmed := PromptUserConfirmation(w, DefaultConfirmationMessage, false);
      if confirmed {
        var _ := TerraformApply(w, envPath, true, dryRun);
      }
    }
    assert w.trace == t3 + (if dryRun then [] else DestroyTail(envPath, planCode, answer));
    DestroyEffectsAfter(t0, envPath, dryRun, planCode, answer);
  }

  /** The destroy effects after an existing trace, one call at a time. */
  lemma DestroyEffectsAfter(t: seq<Event>, envPath: Path, dryRun: bool, planCode: int, answer: string)
    ensures t + DestroyEffects(envPath, dryRun, planCode, answer)
            == t + RunEffects(InitArgv, envPath, dryRun, true) + RunEffects(ValidateArgv, envPath, dryRun, true)
                 + RunEffects(PlanArgv(true), envPath, dryRun, false)
                 + (if dryRun then [] else DestroyTail(envPath, planCode, answer))
  {
  }
}
