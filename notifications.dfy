/**
 * `ErrorHandler` (notifications.py): turns the error record of a failed
 * machine operation, or the text of a failed connection, into exactly one
 * warning or error notification. The notification manager itself (toasts,
 * the desktop notifier, dialogs) is not modelled; the handler's calls to it
 * are recorded in order.
 */
module Notifications {
  import opened Base
  import opened Text
  import opened VirshErrors
  import opened VmOperations

  /** What the handler may be given: a dictionary with any of the keys
      `type`, `message`, `suggestion`, or a plain string. */
  datatype ErrorInput = Record(fields: map<string, string>) | Plain(text: string)

  /** The three values the handler works with once the input is normalised. */
  datatype Fields = Fields(kind: string, message: string, suggestion: string)

  /** One call on the notification manager: `show_warning(message)` or
      `show_error(message, detailed_error)`. */
  datatype Notification =
    | Warning(message: string)
    | Error(message: string, detail: Option<string>)

  const UnknownMessage: string := "Error desconocido"

  /** Look a key up with a default, as `dict.get` does. */
  function Lookup(m: map<string, string>, key: string, default: string): (v: string)
    ensures key in m ==> v == m[key]
    ensures key !in m ==> v == default
  {
    if key in m then m[key] else default
  }

  /** A plain string becomes an unknown error carrying it as the message;
      missing keys of a record take their defaults. */
  function Normalize(e: ErrorInput): Fields {
    match e
    case Plain(text) => Fields("unknown", text, "")
    case Record(m) =>
      Fields(Lookup(m, "type", "unknown"), Lookup(m, "message", UnknownMessage), Lookup(m, "suggestion", ""))
  }

  /** The Spanish verb for each operation name the handler knows. */
  const Verbs: map<string, string> := map[
    "start" := "iniciar",
    "shutdown" := "apagar",
    "reboot" := "reiniciar",
    "destroy" := "forzar el apagado de",
    "save" := "guardar el estado de",
    "restore" := "restaurar"]

  /** The verb of an operation; an unknown operation names itself. */
  function Verb(operation: string): string {
    Lookup(Verbs, operation, operation)
  }

  /** The line appended for a non-empty suggestion. */
  function Tip(suggestion: string): string {
    if suggestion != "" then "\n💡 " + suggestion else ""
  }

  /** The seven types with a dedicated branch. */
  predicate KnownKind(kind: string) {
    kind in {"not_found", "permission", "connection", "already_running", "not_running", "network", "resources"}
  }

  /** The message each type opens with, before the suggestion line. */
  function Head(vm: string, verb: string, kind: string, message: string): string {
    match kind
    case "not_found" => message
    case "permission" => "No se pudo " + verb + " '" + vm + "': " + message
    case "connection" => "Error de conexión: " + message
    case "already_running" => message
    case "not_running" => message
    case "network" => "Error de red al " + verb + " '" + vm + "': " + message
    case "resources" => "Recursos insuficientes para " + verb + " '" + vm + "': " + message
    case _ =>
      "No se pudo " + verb + " '" + vm + "'"
        + (if message != "" && message != UnknownMessage then ": " + message else "")
  }

  /** The notification for normalised fields: the two state conflicts are
      warnings, and only "already_running" leaves out the suggestion. */
  function Report(vm: string, operation: string, f: Fields): Notification {
    var head := Head(vm, Verb(operation), f.kind, f.message);
    if f.kind == "already_running" then Warning(head)
    else if f.kind == "not_running" then Warning(head + Tip(f.suggestion))
    else Error(head + Tip(f.suggestion), None)
  }

  /** `handle_vm_operation_error(vm_name, operation, error_info)`. */
  function OperationErrorNotification(vm: string, operation: string, e: ErrorInput): Notification {
    Report(vm, operation, Normalize(e))
  }

  const PermissionTitle: string := "Sin permisos para acceder a libvirt"
  const PermissionHint: string := "Ejecuta: sudo usermod -a -G libvirt $USER y reinicia la sesión"
  const ConnectTitle: string := "No se pudo conectar al servicio de virtualización"
  const ConnectHint: string := "Verifica que libvirtd esté ejecutándose: sudo systemctl start libvirtd"
  const GenericConnectionTitle: string := "Error de conexión con el sistema de virtualización"

  /** `handle_connection_error(error_message)`: two recognised causes tested
      in order on the lower-cased text, otherwise the raw text as detail. */
  function ConnectionErrorNotification(errorMessage: string): (n: Notification)
    ensures n.Error? && n.detail.Some?
  {
    var l := Lower(errorMessage);
    if Contains(l, "permission denied") then Error(PermissionTitle, Some(PermissionHint))
    else if Contains(l, "failed to connect") then Error(ConnectTitle, Some(ConnectHint))
    else Error(GenericConnectionTitle, Some(errorMessage))
  }

  /** The record `VMManager` hands over for a classified error. */
  function AsInput(e: ErrorInfo): ErrorInput {
    Record(map["type" := e.kind.Name(), "message" := e.message, "suggestion" := e.suggestion])
  }

  class ErrorHandler {
    /** The calls made on the notification manager, oldest first. */
    var shown: seq<Notification>

    constructor()
      ensures shown == []
    {
      shown := [];
    }

    /** Exactly one notification per handled operation error. */
    method HandleVmOperationError(vm: string, operation: string, e: ErrorInput)
      modifies this
      ensures shown == old(shown) + [OperationErrorNotification(vm, operation, e)]
    {
      shown := shown + [OperationErrorNotification(vm, operation, e)];
    }

    /** Exactly one error notification per handled connection error. */
    method HandleConnectionError(errorMessage: string)
      modifies this
      ensures shown == old(shown) + [ConnectionErrorNotification(errorMessage)]
    {
      shown := shown + [ConnectionErrorNotification(errorMessage)];
    }
  }

  // ---------------------------------------------------------------------
  // Properties of the mapping.
  // ---------------------------------------------------------------------

  /** A plain string is an unknown error whose message is the string, with no
      suggestion; a record missing every key gets all three defaults. */
  lemma NormalizeDefaults(text: string)
    ensures Normalize(Plain(text)) == Fields("unknown", text, "")
    ensures Normalize(Record(map[])) == Fields("unknown", UnknownMessage, "")
  {
  }

  /** A plain string is handled like the record the handler builds from it. */
  lemma PlainIsUnknownRecord(vm: string, operation: string, text: string)
    ensures OperationErrorNotification(vm, operation, Plain(text))
         == OperationErrorNotification(vm, operation, Record(map["type" := "unknown", "message" := text, "suggestion" := ""]))
  {
  }

  /** Every operation the manager performs has a verb in the table except
      removing the saved state, which is named by its own identifier. */
  lemma ManagerOperationVerbs(op: Operation)
    ensures op != RemoveSavedState ==> op.Name() in Verbs && Verb(op.Name()) == Verbs[op.Name()]
    ensures Verb(RemoveSavedState.Name()) == "remove_saved_state"
  {
  }

  /** A warning is shown exactly for the two state conflicts; every other
      type is shown as an error without detail. */
  lemma WarningOnlyForStateConflicts(vm: string, operation: string, f: Fields)
    ensures Report(vm, operation, f).Warning? <==> f.kind == "already_running" || f.kind == "not_running"
    ensures Report(vm, operation, f).Error? ==> Report(vm, operation, f).detail.None?
  {
  }

  /** "already_running" shows the message alone: the suggestion never matters. */
  lemma AlreadyRunningMessageOnly(vm: string, operation: string, f: Fields)
    requires f.kind == "already_running"
    ensures Report(vm, operation, f) == Warning(f.message)
  {
  }

  /** For every other type the suggestion only ever adds its own line at the
      end, and adds one exactly when it is non-empty. */
  lemma SuggestionAppended(vm: string, operation: string, f: Fields)
    requires f.kind != "already_running"
    ensures Report(vm, operation, f).message
         == Report(vm, operation, f.(suggestion := "")).message + Tip(f.suggestion)
    ensures Tip(f.suggestion) == "" <==> f.suggestion == ""
    ensures f.suggestion != "" ==> EndsWith(Report(vm, operation, f).message, "\n💡 " + f.suggestion)
  {
    var m := Report(vm, operation, f.(suggestion := "")).message;
    if f.suggestion != "" {
      assert Tip(f.suggestion) == "\n💡 " + f.suggestion;
      assert (m + Tip(f.suggestion))[|m|..] == Tip(f.suggestion);
    }
  }

  /** An unrecognised type names the verb and the machine, and adds the
      message only when it says something. */
  lemma GenericBranch(vm: string, operation: string, f: Fields)
    requires !KnownKind(f.kind)
    ensures Report(vm, operation, f).Error?
    ensures Report(vm, operation, f).message
         == "No se pudo " + Verb(operation) + " '" + vm + "'"
            + (if f.message != "" && f.message != UnknownMessage then ": " + f.message else "")
            + Tip(f.suggestion)
  {
  }

  /** An error record from the manager is shown as a warning exactly when it
      reports a machine already running or not running. */
  lemma ManagerErrorRouting(vm: string, op: Operation, e: ErrorInfo)
    ensures OperationErrorNotification(vm, op.Name(), AsInput(e)).Warning?
        <==> e.kind == AlreadyRunning || e.kind == NotRunning
  {
    var f := Normalize(AsInput(e));
    assert f == Fields(e.kind.Name(), e.message, e.suggestion);
    WarningOnlyForStateConflicts(vm, op.Name(), f);
  }

  /** A denied permission wins over a failed connection, and only a text
      with neither is passed on raw. */
  lemma ConnectionCheckOrder(errorMessage: string)
    ensures Contains(Lower(errorMessage), "permission denied")
        ==> ConnectionErrorNotification(errorMessage) == Error(PermissionTitle, Some(PermissionHint))
    ensures !Contains(Lower(errorMessage), "permission denied") && Contains(Lower(errorMessage), "failed to connect")
        ==> ConnectionErrorNotification(errorMessage) == Error(ConnectTitle, Some(ConnectHint))
    ensures !Contains(Lower(errorMessage), "permission denied") && !Contains(Lower(errorMessage), "failed to connect")
        ==> ConnectionErrorNotification(errorMessage) == Error(GenericConnectionTitle, Some(errorMessage))
  {
  }

  /** The two classifiers order the same two causes differently: a text that
      reports both a failed connection and a denied permission is a
      connection error for `VMManager` but a permission problem here. */
  lemma OppositePrecedence(text: string, operation: string)
    requires Contains(Lower(text), "failed to connect") && Contains(Lower(text), "permission denied")
    ensures ParseVirshError(text, operation).kind == Connection
    ensures ConnectionErrorNotification(text) == Error(PermissionTitle, Some(PermissionHint))
  {
  }
}
