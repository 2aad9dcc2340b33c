/**
 * The life-cycle operations of `VMManager` (`start_vm`, `shutdown_vm`,
 * `destroy_vm`, `reboot_vm`, `save_vm`, `remove_saved_state`): validate
 * against the listing, then run the command, then classify its error.
 */
module VmOperations {
  import opened Base
  import opened Text
  import opened VirshCommand
  import opened VirshErrors
  import opened VmList

  datatype Operation = Start | Shutdown | Destroy | Reboot | Save | RemoveSavedState
  {
    /** The `virsh` sub-command. */
    function Command(): string {
      match this
      case Start => "start"
      case Shutdown => "shutdown"
      case Destroy => "destroy"
      case Reboot => "reboot"
      case Save => "managedsave"
      case RemoveSavedState => "managedsave-remove"
    }

    /** The operation name handed to the error classifier. */
    function Name(): string {
      match this
      case Start => "start"
      case Shutdown => "shutdown"
      case Destroy => "destroy"
      case Reboot => "reboot"
      case Save => "save"
      case RemoveSavedState => "remove_saved_state"
    }

    /** The operations refused unless the machine is running. */
    predicate NeedsRunning() {
      this in {Shutdown, Destroy, Reboot, Save}
    }
  }

  /** `(success, error_info)`, with the `virsh` argument lists issued to get
      it, in order. */
  datatype OpResult = OpResult(ok: bool, error: Option<ErrorInfo>, commands: seq<seq<string>>)

  const ListCommand: seq<string> := ["list", "--all"]

  /** `list_all_vms()` with the given command runner. */
  function Listing(exec: Invocation -> Outcome): seq<VmEntry> {
    var r := RunVirshCommand(ListCommand, exec).result;
    ListedVms(r.success, r.stdout, VmNames)
  }

  /** `_validate_vm_exists`: some listed machine has this name. */
  predicate Exists(vm: string, exec: Invocation -> Outcome) {
    exists i | 0 <= i < |Listing(exec)| :: Listing(exec)[i].name == vm
  }

  /** The first listed entry with this name (Python's `next(...)`). */
  function FirstNamed(vms: seq<VmEntry>, vm: string): (e: Option<VmEntry>)
    ensures e.Some? ==> e.value in vms && e.value.name == vm
    ensures e.None? <==> forall i | 0 <= i < |vms| :: vms[i].name != vm
  {
    if |vms| == 0 then None
    else if vms[0].name == vm then Some(vms[0])
    else FirstNamed(vms[1..], vm)
  }

  /** The entry found is the one at the smallest position with the name: no
      earlier entry has it. */
  lemma {:induction false} FirstNamedIsFirst(vms: seq<VmEntry>, vm: string)
    ensures FirstNamed(vms, vm).Some? ==> exists i | 0 <= i < |vms| ::
      vms[i] == FirstNamed(vms, vm).value && forall j | 0 <= j < i :: vms[j].name != vm
  {
    if |vms| > 0 && vms[0].name != vm && FirstNamed(vms, vm).Some? {
      FirstNamedIsFirst(vms[1..], vm);
      var i :| 0 <= i < |vms| - 1 &&
        vms[1..][i] == FirstNamed(vms[1..], vm).value && forall j | 0 <= j < i :: vms[1..][j].name != vm;
      assert vms[i + 1] == FirstNamed(vms, vm).value;
      assert forall j | 0 <= j < i + 1 :: vms[j].name != vm by {
        forall j | 0 <= j < i + 1 ensures vms[j].name != vm {
          if j > 0 { assert vms[j] == vms[1..][j - 1]; }
        }
      }
    }
  }

  /** `_validate_vm_running`: the first listed entry with this name is running. */
  predicate Running(vm: string, exec: Invocation -> Outcome) {
    var e := FirstNamed(Listing(exec), vm);
    e.Some? && e.value.running
  }

  function NotFoundError(vm: string): ErrorInfo {
    ErrorInfo(NotFound, "La VM '" + vm + "' no existe en el sistema", "Verifica el nombre de la VM")
  }

  function AlreadyRunningError(vm: string): ErrorInfo {
    ErrorInfo(AlreadyRunning, "La VM '" + vm + "' ya está en ejecución", "")
  }

  /** The refusal of an operation on a machine that is not running; the
      suggestion depends on the operation. */
  function NotRunningError(vm: string, op: Operation): ErrorInfo
    requires op.NeedsRunning()
  {
    var suggestion :=
      match op
      case Shutdown => "No se puede apagar una VM que no está corriendo"
      case Destroy => "No se puede forzar el apagado de una VM que no está corriendo"
      case Reboot => "No se puede reiniciar una VM que no está corriendo"
      case Save => "Solo se puede guardar el estado de una VM en ejecución";
    ErrorInfo(NotRunning, "La VM '" + vm + "' no está en ejecución", suggestion)
  }

  /** Run the operation's own command after the validation commands `before`. */
  function RunOperation(op: Operation, vm: string, exec: Invocation -> Outcome, before: seq<seq<string>>): (r: OpResult)
    ensures r.commands == before + [[op.Command(), vm]]
    ensures r.ok <==> r.error.None?
  {
    var r := RunVirshCommand([op.Command(), vm], exec).result;
    if r.success then OpResult(true, None, before + [[op.Command(), vm]])
    else OpResult(false, Some(ParseVirshError(r.stderr, op.Name())), before + [[op.Command(), vm]])
  }

  /** The operation as the manager performs it. */
  function Perform(op: Operation, vm: string, exec: Invocation -> Outcome): OpResult {
    Decide(op, vm, Exists(vm, exec), Running(vm, exec), exec)
  }

  /** The operation once the validations' answers are known: whether the
      machine is listed and whether it is running. */
  function Decide(op: Operation, vm: string, listed: bool, running: bool, exec: Invocation -> Outcome): OpResult {
    match op
    case Start =>
      if !listed then OpResult(false, Some(NotFoundError(vm)), [ListCommand])
      else if running then OpResult(false, Some(AlreadyRunningError(vm)), [ListCommand, ListCommand])
      else RunOperation(op, vm, exec, [ListCommand, ListCommand])
    case RemoveSavedState => RunOperation(op, vm, exec, [])
    case _ =>
      if !running then OpResult(false, Some(NotRunningError(vm, op)), [ListCommand])
      else RunOperation(op, vm, exec, [ListCommand])
  }

  /** The state the manager demands before running an operation's command. */
  predicate Admissible(op: Operation, vm: string, exec: Invocation -> Outcome) {
    Admits(op, Exists(vm, exec), Running(vm, exec))
  }

  predicate Admits(op: Operation, listed: bool, running: bool) {
    if op == Start then listed && !running
    else if op.NeedsRunning() then running
    else true
  }

  /** The operation's command is issued exactly when the validation passes,
      then only once and last, after nothing but listings; success means the
      command succeeded and a failure carries no error record. */
  lemma CommandOnlyAfterValidation(op: Operation, vm: string, exec: Invocation -> Outcome)
    ensures var r := Perform(op, vm, exec);
      && (r.ok <==> r.error.None?)
      && (Admissible(op, vm, exec) <==> [op.Command(), vm] in r.commands)
      && (Admissible(op, vm, exec) ==>
            r.commands[|r.commands| - 1] == [op.Command(), vm]
            && forall i | 0 <= i < |r.commands| - 1 :: r.commands[i] == ListCommand)
      && (!Admissible(op, vm, exec) ==> forall i | 0 <= i < |r.commands| :: r.commands[i] == ListCommand)
  {
    var r := Perform(op, vm, exec);
    var admitted := Admissible(op, vm, exec);
    if admitted {
      AdmittedCommandLast(op, vm, exec);
    } else {
      RefusedListsOnly(op, vm, exec);
    }
    CommandsShape(r, [op.Command(), vm], admitted, Validation(op));
  }

  /** The shape of a result's commands, from how the result was built. */
  lemma CommandsShape(r: OpResult, c: seq<string>, admitted: bool, v: seq<seq<string>>)
    requires |c| > 0 && c[0] != "list"
    requires forall i | 0 <= i < |v| :: v[i] == ListCommand
    requires admitted ==> r.commands == v + [c] && (r.ok <==> r.error.None?)
    requires !admitted ==> !r.ok && r.error.Some? && forall i | 0 <= i < |r.commands| :: r.commands[i] == ListCommand
    ensures r.ok <==> r.error.None?
    ensures admitted <==> c in r.commands
    ensures admitted ==>
      && r.commands[|r.commands| - 1] == c
      && forall i | 0 <= i < |r.commands| - 1 :: r.commands[i] == ListCommand
  {
    if admitted {
      assert r.commands[|v|] == c;
    } else {
      OnlyListings(r.commands, c);
    }
  }

  /** The listings issued while validating an operation that passes. */
  function Validation(op: Operation): (before: seq<seq<string>>)
    ensures forall i | 0 <= i < |before| :: before[i] == ListCommand
  {
    if op == Start then [ListCommand, ListCommand] else if op.NeedsRunning() then [ListCommand] else []
  }

  /** An admitted operation runs its command after the validation listings. */
  lemma AdmittedCommandLast(op: Operation, vm: string, exec: Invocation -> Outcome)
    requires Admissible(op, vm, exec)
    ensures Perform(op, vm, exec) == RunOperation(op, vm, exec, Validation(op))
  {
  }

  /** A refused operation issues listings only and fails with an error. */
  lemma RefusedListsOnly(op: Operation, vm: string, exec: Invocation -> Outcome)
    requires !Admissible(op, vm, exec)
    ensures var r := Perform(op, vm, exec);
      && !r.ok && r.error.Some?
      && forall i | 0 <= i < |r.commands| :: r.commands[i] == ListCommand
  {
    RefusalListsOnly(op, vm, Exists(vm, exec), Running(vm, exec), exec);
  }

  /** A refusal, whatever the validations answered, issues listings only. */
  lemma RefusalListsOnly(op: Operation, vm: string, listed: bool, running: bool, exec: Invocation -> Outcome)
    requires !Admits(op, listed, running)
    ensures var r := Decide(op, vm, listed, running, exec);
      && !r.ok && r.error.Some?
      && forall i | 0 <= i < |r.commands| :: r.commands[i] == ListCommand
  {
    var r := Decide(op, vm, listed, running, exec);
    if op == Start {
      if !listed {
        assert r == OpResult(false, Some(NotFoundError(vm)), [ListCommand]);
      } else {
        assert r == OpResult(false, Some(AlreadyRunningError(vm)), [ListCommand, ListCommand]);
      }
    } else {
      assert r == OpResult(false, Some(NotRunningError(vm, op)), [ListCommand]);
    }
  }

  /** A command other than a listing is absent from a run of listings. */
  lemma OnlyListings(commands: seq<seq<string>>, c: seq<string>)
    requires forall i | 0 <= i < |commands| :: commands[i] == ListCommand
    requires |c| > 0 && c[0] != "list"
    ensures c !in commands
  {
  }

  /** Once validation passes, the result is the command's: success when it
      exits with 0, otherwise the classification of its standard error under
      the operation's name. */
  lemma ResultOfCommand(op: Operation, vm: string, exec: Invocation -> Outcome)
    requires Admissible(op, vm, exec)
    ensures var c := RunVirshCommand([op.Command(), vm], exec).result;
      var r := Perform(op, vm, exec);
      && (r.ok <==> c.success)
      && (!c.success ==> r.error == Some(ParseVirshError(c.stderr, op.Name())))
  {
  }

  /** A running machine exists, so starting it is refused as already running. */
  lemma StartRunningRefused(vm: string, exec: Invocation -> Outcome)
    requires Running(vm, exec)
    ensures Perform(Start, vm, exec) == OpResult(false, Some(AlreadyRunningError(vm)), [ListCommand, ListCommand])
  {
    var e := FirstNamed(Listing(exec), vm);
    var i :| 0 <= i < |Listing(exec)| && Listing(exec)[i] == e.value;
    assert Exists(vm, exec);
  }

  /** A machine outside the configuration is never listed: starting it
      reports it missing, and every other validated operation reports it not
      running, without its command being run. */
  lemma UnconfiguredMachineRefused(op: Operation, vm: string, exec: Invocation -> Outcome)
    requires vm !in VmNames
    ensures op == Start ==> Perform(op, vm, exec) == OpResult(false, Some(NotFoundError(vm)), [ListCommand])
    ensures op.NeedsRunning() ==> Perform(op, vm, exec) == OpResult(false, Some(NotRunningError(vm, op)), [ListCommand])
  {
    if op == Start {
      UnconfiguredStartRefused(vm, exec);
    } else if op.NeedsRunning() {
      UnconfiguredStopRefused(op, vm, exec);
    }
  }

  lemma UnconfiguredStartRefused(vm: string, exec: Invocation -> Outcome)
    requires vm !in VmNames
    ensures Perform(Start, vm, exec) == OpResult(false, Some(NotFoundError(vm)), [ListCommand])
  {
    NeverListed(vm, exec);
  }

  lemma UnconfiguredStopRefused(op: Operation, vm: string, exec: Invocation -> Outcome)
    requires vm !in VmNames && op.NeedsRunning()
    ensures Perform(op, vm, exec) == OpResult(false, Some(NotRunningError(vm, op)), [ListCommand])
  {
    NeverListed(vm, exec);
  }

  /** A machine outside the configuration is neither listed nor running. */
  lemma NeverListed(vm: string, exec: Invocation -> Outcome)
    requires vm !in VmNames
    ensures !Exists(vm, exec) && !Running(vm, exec)
  {
    var r := RunVirshCommand(ListCommand, exec).result;
    OnlyConfiguredMachines(r.success, r.stdout, VmNames);
  }
}
