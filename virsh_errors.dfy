/**
 * Classification of the standard-error text of a failed `virsh` command
 * (`VMManager._parse_virsh_error`): an ordered, first-match-wins chain of
 * substring tests on the lower-cased text, producing a record of type,
 * message and suggestion.
 */
module VirshErrors {
  import opened Base
  import opened Text

  datatype ErrorKind =
    | Connection | Permission | NotFound | AlreadyRunning
    | NotRunning | Network | Resources | Unknown
  {
    /** The `"type"` string stored in the error dictionary. */
    function Name(): string {
      match this
      case Connection => "connection"
      case Permission => "permission"
      case NotFound => "not_found"
      case AlreadyRunning => "already_running"
      case NotRunning => "not_running"
      case Network => "network"
      case Resources => "resources"
      case Unknown => "unknown"
    }
  }

  /** The `{type, message, suggestion}` dictionary. */
  datatype ErrorInfo = ErrorInfo(kind: ErrorKind, message: string, suggestion: string)

  /** The chain of substring tests on the lower-cased text, first match winning. */
  function KindOf(l: string): ErrorKind {
    if Contains(l, "failed to connect") || Contains(l, "connection refused") then Connection
    else if Contains(l, "permission denied") || Contains(l, "access denied") then Permission
    else if Contains(l, "domain not found") || Contains(l, "failed to get domain") then NotFound
    else if Contains(l, "already active") || Contains(l, "is already active") then AlreadyRunning
    else if Contains(l, "domain is not running") || Contains(l, "not running") then NotRunning
    else if Contains(l, "network") && Contains(l, "error") then Network
    else if Contains(l, "no space") || Contains(l, "out of memory") then Resources
    else Unknown
  }

  /** `_parse_virsh_error(stderr, operation)`; the operation is not used. A
      recognised kind returns its fixed record, an unrecognised text itself. */
  function ParseVirshError(stderr: string, operation: string): (r: ErrorInfo)
    ensures r.kind == KindOf(Lower(stderr))
    ensures r.kind == Unknown ==> r.message == Strip(stderr) && r.suggestion == ""
    ensures r.kind != Unknown ==> r == Template(r.kind)
  {
    var kind := KindOf(Lower(stderr));
    if kind == Unknown then ErrorInfo(Unknown, Strip(stderr), "") else Template(kind)
  }

  /** The fixed message and suggestion each recognised kind replaces the raw text with. */
  function Template(kind: ErrorKind): ErrorInfo
    requires kind != Unknown
  {
    match kind
    case Connection => ErrorInfo(Connection, "No se pudo conectar al servicio de virtualización",
                                 "Ejecuta: sudo systemctl start libvirtd")
    case Permission => ErrorInfo(Permission, "Permisos insuficientes para la operación",
                                 "Ejecuta: sudo usermod -a -G libvirt $USER y reinicia sesión")
    case NotFound => ErrorInfo(NotFound, "La máquina virtual no existe",
                               "Verifica el nombre de la VM con: virsh list --all")
    case AlreadyRunning => ErrorInfo(AlreadyRunning, "La VM ya está en ejecución", "")
    case NotRunning => ErrorInfo(NotRunning, "La VM no está en ejecución", "Inicia la VM primero")
    case Network => ErrorInfo(Network, "Error de configuración de red",
                              "Verifica la configuración de red de la VM")
    case Resources => ErrorInfo(Resources, "Recursos insuficientes del sistema",
                                "Libera espacio en disco o memoria RAM")
  }

  // ---------------------------------------------------------------------
  // An independent, declarative statement of the same classifier: a table
  // of rules tried in order. A rule fires when one of its alternatives has
  // every one of its patterns in the lower-cased text.
  // ---------------------------------------------------------------------

  datatype Rule = Rule(kind: ErrorKind, alternatives: seq<seq<string>>)

  const Rules: seq<Rule> := [
    Rule(Connection, [["failed to connect"], ["connection refused"]]),
    Rule(Permission, [["permission denied"], ["access denied"]]),
    Rule(NotFound, [["domain not found"], ["failed to get domain"]]),
    Rule(AlreadyRunning, [["already active"], ["is already active"]]),
    Rule(NotRunning, [["domain is not running"], ["not running"]]),
    Rule(Network, [["network", "error"]]),
    Rule(Resources, [["no space"], ["out of memory"]])
  ]

  predicate AllPresent(text: string, patterns: seq<string>) {
    forall k | 0 <= k < |patterns| :: Contains(text, patterns[k])
  }

  predicate Fires(rule: Rule, text: string) {
    exists k | 0 <= k < |rule.alternatives| :: AllPresent(text, rule.alternatives[k])
  }

  /** The kind of the first rule that fires, or `Unknown`. */
  function FirstFiring(rules: seq<Rule>, text: string): (kind: ErrorKind)
    ensures kind == Unknown || exists k | 0 <= k < |rules| :: rules[k].kind == kind && Fires(rules[k], text)
  {
    if |rules| == 0 then Unknown
    else if Fires(rules[0], text) then rules[0].kind
    else FirstFiring(rules[1..], text)
  }

  lemma {:induction false} FirstFiringNone(rules: seq<Rule>, text: string)
    requires forall k | 0 <= k < |rules| :: rules[k].kind != Unknown
    ensures FirstFiring(rules, text) == Unknown <==> forall k | 0 <= k < |rules| :: !Fires(rules[k], text)
  {
    if |rules| > 0 {
      FirstFiringNone(rules[1..], text);
      assert forall k | 0 <= k < |rules| - 1 :: rules[1..][k] == rules[k + 1];
    }
  }

  lemma AllPresentSingle(text: string, p: string)
    ensures AllPresent(text, [p]) <==> Contains(text, p)
  {
    assert [p][0] == p;
  }

  lemma FiresEither(text: string, kind: ErrorKind, p: string, q: string)
    ensures Fires(Rule(kind, [[p], [q]]), text) <==> Contains(text, p) || Contains(text, q)
  {
    AllPresentSingle(text, p);
    AllPresentSingle(text, q);
    var alts := [[p], [q]];
    assert alts[0] == [p] && alts[1] == [q];
  }

  lemma FiresBoth(text: string, kind: ErrorKind, p: string, q: string)
    ensures Fires(Rule(kind, [[p, q]]), text) <==> Contains(text, p) && Contains(text, q)
  {
    var alts := [[p, q]];
    assert alts[0] == [p, q];
    assert [p, q][0] == p && [p, q][1] == q;
  }

  /** What each rule of the table tests, written out. */
  lemma RulesSpelledOut(l: string)
    ensures Fires(Rules[0], l) <==> Contains(l, "failed to connect") || Contains(l, "connection refused")
    ensures Fires(Rules[1], l) <==> Contains(l, "permission denied") || Contains(l, "access denied")
    ensures Fires(Rules[2], l) <==> Contains(l, "domain not found") || Contains(l, "failed to get domain")
    ensures Fires(Rules[3], l) <==> Contains(l, "already active") || Contains(l, "is already active")
    ensures Fires(Rules[4], l) <==> Contains(l, "domain is not running") || Contains(l, "not running")
    ensures Fires(Rules[5], l) <==> Contains(l, "network") && Contains(l, "error")
    ensures Fires(Rules[6], l) <==> Contains(l, "no space") || Contains(l, "out of memory")
  {
    FiresEither(l, Connection, "failed to connect", "connection refused");
    FiresEither(l, Permission, "permission denied", "access denied");
    FiresEither(l, NotFound, "domain not found", "failed to get domain");
    FiresEither(l, AlreadyRunning, "already active", "is already active");
    FiresEither(l, NotRunning, "domain is not running", "not running");
    FiresBoth(l, Network, "network", "error");
    FiresEither(l, Resources, "no space", "out of memory");
  }

  /** The chain of tests in `ParseVirshError` is exactly the rule table tried in order. */
  lemma ParseVirshErrorFollowsRules(stderr: string, operation: string)
    ensures ParseVirshError(stderr, operation).kind == FirstFiring(Rules, Lower(stderr))
  {
    KindOfFollowsRules(Lower(stderr));
  }

  lemma KindOfFollowsRules(l: string)
    ensures KindOf(l) == FirstFiring(Rules, l)
  {
    RulesSpelledOut(l);
    var r := Rules;
    assert FirstFiring(r[6..], l) == if Fires(r[6], l) then r[6].kind else FirstFiring(r[7..], l);
    assert FirstFiring(r[5..], l) == if Fires(r[5], l) then r[5].kind else FirstFiring(r[6..], l);
    assert FirstFiring(r[4..], l) == if Fires(r[4], l) then r[4].kind else FirstFiring(r[5..], l);
    assert FirstFiring(r[3..], l) == if Fires(r[3], l) then r[3].kind else FirstFiring(r[4..], l);
    assert FirstFiring(r[2..], l) == if Fires(r[2], l) then r[2].kind else FirstFiring(r[3..], l);
    assert FirstFiring(r[1..], l) == if Fires(r[1], l) then r[1].kind else FirstFiring(r[2..], l);
    assert FirstFiring(r, l) == if Fires(r[0], l) then r[0].kind else FirstFiring(r[1..], l);
  }

  /** The type is `unknown` exactly when no rule fires, and then the record
      carries the stripped text and no suggestion. */
  lemma UnknownIffNothingMatches(stderr: string, operation: string)
    ensures ParseVirshError(stderr, operation).kind == Unknown <==> NoRuleFires(Lower(stderr))
    ensures ParseVirshError(stderr, operation).kind == Unknown ==>
      ParseVirshError(stderr, operation) == ErrorInfo(Unknown, Strip(stderr), "")
  {
    var l := Lower(stderr);
    KindOfFollowsRules(l);
    RulesAllKnown();
    FirstFiringNone(Rules, l);
  }

  /** No rule of the table fires on the text. */
  predicate NoRuleFires(l: string) {
    forall k | 0 <= k < |Rules| :: !Fires(Rules[k], l)
  }

  lemma RulesAllKnown()
    ensures forall k | 0 <= k < |Rules| :: Rules[k].kind != Unknown
  {
  }

  /** First match wins: connection problems are reported as such whatever
      else the text says (a refused connection that also mentions a denied
      permission is a connection error). */
  lemma ConnectionWins(stderr: string, operation: string)
    requires Contains(Lower(stderr), "connection refused") || Contains(Lower(stderr), "failed to connect")
    ensures ParseVirshError(stderr, operation).kind == Connection
  {
  }

  /** The network type needs both words and is reached only when none of the
      five earlier groups matched. */
  lemma NetworkNeedsBothWords(stderr: string, operation: string)
    requires ParseVirshError(stderr, operation).kind == Network
    ensures Contains(Lower(stderr), "network") && Contains(Lower(stderr), "error")
    ensures forall k | 0 <= k < 5 :: !Fires(Rules[k], Lower(stderr))
  {
    RulesSpelledOut(Lower(stderr));
  }

  /** The second test of the "already active" and "not running" groups can
      never decide anything: every text it matches, the first test matches too. */
  lemma SecondAlternativesRedundant(text: string)
    ensures Contains(text, "is already active") ==> Contains(text, "already active")
    ensures Contains(text, "domain is not running") ==> Contains(text, "not running")
  {
    if Contains(text, "is already active") {
      ContainsSuffixOf(text, "is already active", "already active");
    }
    if Contains(text, "domain is not running") {
      ContainsSuffixOf(text, "domain is not running", "not running");
    }
  }

  /** A libvirt "domain not found" message is classified as `not_found`. */
  lemma DomainNotFoundExample()
    ensures ParseVirshError("error: " + "Domain not found" + ": no domain with matching name 'x'", "start").kind
            == NotFound
  {
    var pre, mid, post := "error: ", "domain not found", ": no domain with matching name 'x'";
    ExampleLowered(pre, "Domain not found", mid, post);
    ExampleFacts(pre, mid, post);
    var l := pre + mid + post;
    // The text has no 'l' and no 's', which rules out the first two groups.
    MissingCharRulesOut(l, "failed to connect", 'l', 3);
    MissingCharRulesOut(l, "connection refused", 's', 15);
    MissingCharRulesOut(l, "permission denied", 's', 5);
    MissingCharRulesOut(l, "access denied", 's', 4);
    assert Contains(l, "domain not found");
  }

  lemma ExampleFacts(pre: string, mid: string, post: string)
    requires pre == "error: " && mid == "domain not found" && post == ": no domain with matching name 'x'"
    ensures OccursAt(pre + mid + post, mid, |pre|)
    ensures 'l' !in pre + mid + post && 's' !in pre + mid + post
  {
    var l := pre + mid + post;
    assert l[|pre|..|pre| + |mid|] == mid;
    LacksChar(pre, mid, post, 'l');
    LacksChar(pre, mid, post, 's');
  }

  lemma LacksChar(a: string, b: string, c: string, x: char)
    requires x !in a && x !in b && x !in c
    ensures x !in a + b + c
  {
  }

  lemma ExampleLowered(a: string, b: string, b': string, c: string)
    requires a == "error: " && b == "Domain not found" && b' == "domain not found"
    requires c == ": no domain with matching name 'x'"
    ensures Lower(a + b + c) == a + b' + c
  {
    LowerConcat(a, b);
    LowerConcat(a + b, c);
    LowerKeeps(a);
    LowerKeeps(c);
    assert Lower(b) == b' by {
      forall k | 0 <= k < |b| ensures Lower(b)[k] == b'[k] { }
    }
  }

  lemma LowerKeeps(s: string)
    requires forall k | 0 <= k < |s| :: !('A' <= s[k] <= 'Z')
    ensures Lower(s) == s
  {
  }

  lemma LowerConcat(a: string, b: string)
    ensures Lower(a + b) == Lower(a) + Lower(b)
  {
  }
}
