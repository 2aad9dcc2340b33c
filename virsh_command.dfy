/**
 * The retry decision of `VMManager._run_virsh_command`. Running a process is
 * outside the model: `exec` stands for `subprocess.run` and says what a given
 * command line did (exited with a code and output, timed out, was not found,
 * or raised some other exception).
 */
module VirshCommand {
  import opened Text

  const ConnectionUri: string := "qemu:///system"

  /** One process invocation: the command line and its timeout in seconds. */
  datatype Invocation = Invocation(argv: seq<string>, timeoutSeconds: nat)

  /** What one invocation did. */
  datatype Outcome =
    | Exited(returnCode: int, stdout: string, stderr: string)
    | TimedOut
    | ExecutableMissing
    | Raised(description: string)

  /** The `(success, stdout, stderr)` triple the parsers receive. */
  datatype CommandResult = CommandResult(success: bool, stdout: string, stderr: string)

  /** The result together with the invocations made to obtain it, in order. */
  datatype Run = Run(result: CommandResult, invocations: seq<Invocation>)

  function Direct(args: seq<string>): Invocation {
    Invocation(["virsh", "-c", ConnectionUri] + args, 30)
  }

  function Elevated(args: seq<string>): Invocation {
    Invocation(["pkexec", "virsh", "-c", ConnectionUri] + args, 60)
  }

  /** A non-zero exit whose standard error mentions a permission problem. */
  predicate PermissionFailure(o: Outcome) {
    o.Exited? && o.returnCode != 0
    && (Contains(Lower(o.stderr), "permission") || Contains(Lower(o.stderr), "access denied"))
  }

  /** How the last outcome is reported; every exception becomes a failure
      with empty output and an explanatory message. */
  function Report(args: seq<string>, o: Outcome): CommandResult {
    match o
    case Exited(code, out, err) => CommandResult(code == 0, out, err)
    case TimedOut =>
      CommandResult(false, "", "Comando '" + JoinWith(args, " ") + "' excedió el tiempo de espera")
    case ExecutableMissing =>
      CommandResult(false, "", "virsh no está instalado o no se encuentra en el PATH")
    case Raised(e) => CommandResult(false, "", "Error inesperado ejecutando virsh: " + e)
  }

  /** `_run_virsh_command(args)`. */
  function RunVirshCommand(args: seq<string>, exec: Invocation -> Outcome): (r: Run)
    ensures 1 <= |r.invocations| <= 2
    ensures r.invocations[0] == Direct(args)
    ensures |r.invocations| == 2 <==> PermissionFailure(exec(Direct(args)))
    ensures |r.invocations| == 2 ==> r.invocations[1] == Elevated(args)
    ensures r.result == Report(args, exec(r.invocations[|r.invocations| - 1]))
  {
    var first := exec(Direct(args));
    if PermissionFailure(first) then
      Run(Report(args, exec(Elevated(args))), [Direct(args), Elevated(args)])
    else
      Run(Report(args, first), [Direct(args)])
  }

  /** Success means the last process run exited with code 0, and then its
      output is passed through unchanged. */
  lemma SuccessMeansZeroExit(args: seq<string>, exec: Invocation -> Outcome)
    ensures var r := RunVirshCommand(args, exec);
      var last := exec(r.invocations[|r.invocations| - 1]);
      r.result.success <==> last.Exited? && last.returnCode == 0
  {
  }

  /** A failure never carries standard output unless a process actually
      exited, and its standard error is never empty when an exception was
      raised. */
  lemma ExceptionsBecomeFailures(args: seq<string>, exec: Invocation -> Outcome)
    ensures var r := RunVirshCommand(args, exec);
      var last := exec(r.invocations[|r.invocations| - 1]);
      !last.Exited? ==> !r.result.success && r.result.stdout == "" && |r.result.stderr| > 0
  {
  }

  /** Only a permission problem on the first, direct run leads to the
      elevated retry: a timeout or a missing executable is reported at once. */
  lemma NoRetryWithoutExit(args: seq<string>, exec: Invocation -> Outcome)
    requires !exec(Direct(args)).Exited?
    ensures RunVirshCommand(args, exec).invocations == [Direct(args)]
    ensures !RunVirshCommand(args, exec).result.success
  {
  }

  /** "Permission denied" in any letter case triggers the retry, whatever
      else the error says. */
  lemma PermissionDeniedRetries(args: seq<string>, exec: Invocation -> Outcome, code: int, out: string, pre: string, post: string)
    requires code != 0
    requires exec(Direct(args)) == Exited(code, out, pre + "Permission denied" + post)
    ensures RunVirshCommand(args, exec).invocations == [Direct(args), Elevated(args)]
  {
    var err := pre + "Permission denied" + post;
    var l := Lower(err);
    assert Lower(err) == Lower(pre) + Lower("Permission denied") + Lower(post);
    assert Lower("Permission denied")[..10] == "permission";
    assert l[|pre|..|pre| + 10] == "permission";
    assert OccursAt(l, "permission", |pre|);
  }
}
