/**
 * cli/terraform_utils.py: each operation builds one Terraform argument list
 * and hands it to run_cmd with env_path as the working directory and the
 * caller's dry_run flag.
 */
module TerraformUtils {
  import opened Wrappers
  import opened World
  import opened Utils

  const InitArgv: seq<string> := ["terraform", "init", "-input=false"]
  const ValidateArgv: seq<string> := ["terraform", "validate"]

  /** The plan command line: -detailed-exitcode always, -destroy iff destroy. */
  function PlanArgv(destroy: bool): (argv: seq<string>)
    ensures |argv| >= 3 && argv[..3] == ["terraform", "plan", "-detailed-exitcode"]
    ensures |argv| == 4 <==> destroy
    ensures |argv| == 3 <==> !destroy
    ensures destroy ==> argv[3] == "-destroy"
  {
    ["terraform", "plan", "-detailed-exitcode"] + (if destroy then ["-destroy"] else [])
  }

  /** The apply command line: -auto-approve always, -destroy iff destroy. */
  function ApplyArgv(destroy: bool): (argv: seq<string>)
    ensures |argv| >= 3 && argv[..3] == ["terraform", "apply", "-auto-approve"]
    ensures |argv| == 4 <==> destroy
    ensures |argv| == 3 <==> !destroy
    ensures destroy ==> argv[3] == "-destroy"
  {
    ["terraform", "apply", "-auto-approve"] + (if destroy then ["-destroy"] else [])
  }

  /** The four command lines are pairwise distinct, so a trace tells them apart. */
  lemma ArgvsDistinct(d: bool, e: bool)
    ensures InitArgv != ValidateArgv && InitArgv != PlanArgv(d) && InitArgv != ApplyArgv(d)
    ensures ValidateArgv != PlanArgv(d) && ValidateArgv != ApplyArgv(d) && PlanArgv(d) != ApplyArgv(e)
    ensures PlanArgv(d) == PlanArgv(e) <==> d == e
    ensures ApplyArgv(d) == ApplyArgv(e) <==> d == e
  {
    assert InitArgv[1] == "init" && ValidateArgv[1] == "validate";
    assert PlanArgv(d)[1] == "plan" && ApplyArgv(e)[1] == "apply" && ApplyArgv(d)[1] == "apply";
    if d != e {
      assert |PlanArgv(d)| != |PlanArgv(e)| && |ApplyArgv(d)| != |ApplyArgv(e)|;
    }
  }

  datatype PlanStatus = NoChanges | ChangesPending | PlanError

  /** terraform plan -detailed-exitcode: 0 is no changes, 2 is changes, anything else an error. */
  function PlanStatusOf(returncode: int): (s: PlanStatus)
    ensures s == NoChanges <==> returncode == 0
    ensures s == ChangesPending <==> returncode == 2
    ensures s == PlanError <==> returncode != 0 && returncode != 2
  {
    if returncode == 0 then NoChanges
    else if returncode == 2 then ChangesPending
    else PlanError
  }

  method TerraformInit(w: World, envPath: Path, dryRun: bool) returns (result: Option<CompletedProcess>)
    requires w.Valid()
    modifies w
    ensures w.Valid() && w.fs == old(w.fs) && w.links == old(w.links)
    ensures w.trace == old(w.trace) + RunEffects(InitArgv, envPath, dryRun, true)
    ensures result.None? <==> dryRun
  {
    result := RunCmd(w, ["terraform", "init", "-input=false"], envPath, dryRun, true);
  }

  method TerraformValidate(w: World, envPath: Path, dryRun: bool) returns (result: Option<CompletedProcess>)
    requires w.Valid()
    modifies w
    ensures w.Valid() && w.fs == old(w.fs) && w.links == old(w.links)
    ensures w.trace == old(w.trace) + RunEffects(ValidateArgv, envPath, dryRun, true)
    ensures result.None? <==> dryRun
  {
    result := RunCmd(w, ["terraform", "validate"], envPath, dryRun, true);
  }

  /** terraform_plan: output is streamed, not captured. */
  method TerraformPlan(w: World, envPath: Path, destroy: bool, dryRun: bool)
    returns (result: Option<CompletedProcess>)
    requires w.Valid()
    modifies w
    ensures w.Valid() && w.fs == old(w.fs) && w.links == old(w.links)
    ensures w.trace == old(w.trace) + RunEffects(PlanArgv(destroy), envPath, dryRun, false)
    ensures result.None? <==> dryRun
    ensures result.Some? ==> result.value.returncode == w.exitCodes(|Commands(old(w.trace))|)
  {
    var cmd := ["terraform", "plan", "-detailed-exitcode"];
    if destroy {
      cmd := cmd + ["-destroy"];
    }
    assert cmd == PlanArgv(destroy);
    result := RunCmd(w, cmd, envPath, dryRun, false);
  }

  /**
   * terraform_state_has_changes: true iff the plan exits with 2.  In dry-run
   * both the plan and the echoed apply go through run_cmd's dry-run path, so
   * nothing is executed and the answer is false.
   */
  method TerraformStateHasChanges(w: World, envPath: Path, destroy: bool, dryRun: bool)
    returns (changes: bool)
    requires w.Valid()
    modifies w
    ensures w.Valid() && w.fs == old(w.fs) && w.links == old(w.links)
    ensures w.trace == old(w.trace) + RunEffects(PlanArgv(destroy), envPath, dryRun, false)
    ensures changes <==> !dryRun && PlanStatusOf(w.exitCodes(|Commands(old(w.trace))|)) == ChangesPending
  {
    var result := TerraformPlan(w, envPath, destroy, dryRun);
    if dryRun {
      var cmd := ["terraform", "apply", "-auto-approve"];
      if destroy {
        cmd := cmd + ["-destroy"];
      }
      var _ := RunCmd(w, cmd, envPath, true, false);
      return false;
    }
    var status := PlanStatusOf(result.value.returncode);
    if status == NoChanges {
      changes := false;
    } else if status == ChangesPending {
      changes := true;
    } else {
      changes := false;
    }
  }

  /** terraform_apply: output is streamed, not captured. */
  method TerraformApply(w: World, envPath: Path, destroy: bool, dryRun: bool)
    returns (result: Option<CompletedProcess>)
    requires w.Valid()
    modifies w
    ensures w.Valid() && w.fs == old(w.fs) && w.links == old(w.links)
    ensures w.trace == old(w.trace) + RunEffects(ApplyArgv(destroy), envPath, dryRun, false)
    ensures result.None? <==> dryRun
  {
    var cmd := ["terraform", "apply", "-auto-approve"];
    if destroy {
      cmd := cmd + ["-destroy"];
    }
    assert cmd == ApplyArgv(destroy);
    result := RunCmd(w, cmd, envPath, dryRun, false);
  }
}
