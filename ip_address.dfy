/**
 * The address selection of `VMManager.get_vm_ip_address`: ask
 * `virsh domifaddr` with each address source in turn and return the first
 * usable IPv4 address found in its table.
 */
module IpAddress {
  import opened Base
  import opened Text
  import opened VirshCommand
  import opened VmList

  /** The address sources, in the order they are asked. */
  const Sources: seq<string> := ["lease", "agent", "arp"]

  /** The first present value `f` gives along `xs`, or `None`. */
  function FirstSome<T, U>(xs: seq<T>, f: T -> Option<U>): Option<U> {
    if |xs| == 0 then None
    else if f(xs[0]).Some? then f(xs[0])
    else FirstSome(xs[1..], f)
  }

  /** Digits only, with a value up to 255. */
  predicate Octet(o: string) {
    IsDigits(o) && DigitsValue(o) <= 255
  }

  /** Four dot-separated octets. */
  predicate DottedQuad(ip: string) {
    var octets := SplitOn(ip, '.');
    |octets| == 4 && forall k :: 0 <= k < 4 ==> Octet(octets[k])
  }

  /** An address the panel accepts: a dotted quad that is neither the
      loopback address nor in `0.0.0.0/8`. */
  predicate Usable(ip: string) {
    DottedQuad(ip) && ip != "127.0.0.1" && !StartsWith(ip, "0.")
  }

  /** What one word of a row offers: the text before its first '/', when the
      word has both a '.' and a '/' and that text is usable. */
  function Candidate(part: string): Option<string> {
    if '.' in part && '/' in part && Usable(Before(part, '/')) then Some(Before(part, '/'))
    else None
  }

  /** What one table row offers: the first candidate among its words, for a
      non-blank row of at least four words. */
  function RowAddress(line: string): Option<string> {
    if Strip(line) != "" && |Tokens(line)| >= 4 then FirstSome(Tokens(line), Candidate)
    else None
  }

  /** What the output of one command offers. */
  function OutputAddress(r: CommandResult): Option<string> {
    if r.success && r.stdout != "" then FirstSome(TableRows(r.stdout), RowAddress)
    else None
  }

  /** `virsh domifaddr <vm> --source <source>`. */
  function Query(vm: string, source: string, exec: Invocation -> Outcome): CommandResult {
    RunVirshCommand(["domifaddr", vm, "--source", source], exec).result
  }

  /** What the command returns for each source, in the order of `Sources`. */
  function Answers(vm: string, exec: Invocation -> Outcome): (rs: seq<CommandResult>)
    ensures |rs| == |Sources|
    ensures forall s | 0 <= s < |Sources| :: rs[s] == Query(vm, Sources[s], exec)
  {
    [Query(vm, "lease", exec), Query(vm, "agent", exec), Query(vm, "arp", exec)]
  }

  /** `get_vm_ip_address(vm)` as a function of what each command returns. */
  function VmIpAddress(vm: string, exec: Invocation -> Outcome): Option<string> {
    FirstSome(Answers(vm, exec), OutputAddress)
  }

  /** `FirstSome` finds the earliest present value: it is present exactly
      when some element gives one, and then every earlier element gives none. */
  lemma {:induction false} FirstSomeIsFirst<T, U>(xs: seq<T>, f: T -> Option<U>)
    ensures FirstSome(xs, f).None? <==> forall i | 0 <= i < |xs| :: f(xs[i]).None?
    ensures FirstSome(xs, f).Some? ==>
      exists i | 0 <= i < |xs| :: f(xs[i]) == FirstSome(xs, f) && forall j | 0 <= j < i :: f(xs[j]).None?
  {
    if |xs| > 0 && f(xs[0]).None? {
      var tail := xs[1..];
      FirstSomeIsFirst(tail, f);
      assert forall i | 0 <= i < |tail| :: tail[i] == xs[i + 1];
      if FirstSome(tail, f).Some? {
        var i :| 0 <= i < |tail| && f(tail[i]) == FirstSome(tail, f) && forall j | 0 <= j < i :: f(tail[j]).None?;
        assert f(xs[i + 1]) == FirstSome(xs, f);
        assert forall j | 0 <= j < i + 1 :: f(xs[j]).None? by {
          forall j | 0 <= j < i + 1 ensures f(xs[j]).None? {
            if j > 0 { assert xs[j] == tail[j - 1]; }
          }
        }
      } else {
        forall i | 0 <= i < |xs| ensures f(xs[i]).None? {
          if i > 0 { assert xs[i] == tail[i - 1]; }
        }
      }
    } else if |xs| > 0 {
      assert f(xs[0]) == FirstSome(xs, f);
    }
  }

  /** One step of a scan from position `i`. */
  lemma FirstSomeStep<T, U>(xs: seq<T>, f: T -> Option<U>, i: nat)
    requires i < |xs|
    ensures FirstSome(xs[i..], f) == if f(xs[i]).Some? then f(xs[i]) else FirstSome(xs[i + 1..], f)
  {
    assert xs[i..][0] == xs[i];
    assert xs[i..][1..] == xs[i + 1..];
  }

  /** `get_vm_ip_address(vm)`: the three sources in order, the rows of each
      table after its two header lines, the words of each row. */
  method GetVmIpAddress(vm: string, exec: Invocation -> Outcome) returns (ip: Option<string>)
    ensures ip == VmIpAddress(vm, exec)
  {
    ghost var answers := Answers(vm, exec);
    var s := 0;
    while s < |Sources|
      invariant 0 <= s <= |Sources|
      invariant VmIpAddress(vm, exec) == FirstSome(answers[s..], OutputAddress)
    {
      var r := RunVirshCommand(["domifaddr", vm, "--source", Sources[s]], exec).result;
      assert r == answers[s];
      var found := ScanOutput(r);
      FirstSomeStep(answers, OutputAddress, s);
      if found.Some? {
        return found;
      }
      s := s + 1;
    }
    assert answers[s..] == [];
    return None;
  }

  /** The rows of one command's table, scanned in order. */
  method ScanOutput(r: CommandResult) returns (ip: Option<string>)
    ensures ip == OutputAddress(r)
  {
    if !(r.success && r.stdout != "") {
      return None;
    }
    var lines := TableRows(r.stdout);
    var j := 0;
    while j < |lines|
      invariant 0 <= j <= |lines|
      invariant OutputAddress(r) == FirstSome(lines[j..], RowAddress)
    {
      var found := ScanRow(lines[j]);
      FirstSomeStep(lines, RowAddress, j);
      if found.Some? {
        return found;
      }
      j := j + 1;
    }
    assert lines[j..] == [];
    return None;
  }

  /** The words of one row, scanned in order. */
  method ScanRow(line: string) returns (ip: Option<string>)
    ensures ip == RowAddress(line)
  {
    if Strip(line) == "" {
      return None;
    }
    var parts := Tokens(line);
    if |parts| < 4 {
      return None;
    }
    var k := 0;
    while k < |parts|
      invariant 0 <= k <= |parts|
      invariant RowAddress(line) == FirstSome(parts[k..], Candidate)
    {
      var part := parts[k];
      FirstSomeStep(parts, Candidate, k);
      if '.' in part && '/' in part {
        var candidate := Before(part, '/');
        var octets := SplitOn(candidate, '.');
        if |octets| == 4 && forall o :: 0 <= o < 4 ==> IsDigits(octets[o]) && DigitsValue(octets[o]) <= 255 {
          if candidate != "127.0.0.1" && !StartsWith(candidate, "0.") {
            return Some(candidate);
          }
        }
      }
      k := k + 1;
    }
    assert parts[k..] == [];
    return None;
  }

  /** Every address returned is usable: four octets in 0..255, not the
      loopback address, not starting with "0.". */
  lemma AddressIsUsable(vm: string, exec: Invocation -> Outcome)
    ensures VmIpAddress(vm, exec).Some? ==> Usable(VmIpAddress(vm, exec).value)
  {
    var answers := Answers(vm, exec);
    FirstSomeIsFirst(answers, OutputAddress);
    if VmIpAddress(vm, exec).Some? {
      var s :| 0 <= s < |answers| && OutputAddress(answers[s]) == VmIpAddress(vm, exec);
      var r := answers[s];
      var rows := TableRows(r.stdout);
      FirstSomeIsFirst(rows, RowAddress);
      var j :| 0 <= j < |rows| && RowAddress(rows[j]) == VmIpAddress(vm, exec);
      var parts := Tokens(rows[j]);
      FirstSomeIsFirst(parts, Candidate);
      var k :| 0 <= k < |parts| && Candidate(parts[k]) == VmIpAddress(vm, exec);
    }
  }

  /** The sources are asked in the order lease, agent, arp: the result is the
      address of the first source whose table offers one, and `None` when
      none does. */
  lemma SourcesInOrder(vm: string, exec: Invocation -> Outcome)
    ensures VmIpAddress(vm, exec).None? <==>
      forall s | 0 <= s < |Sources| :: OutputAddress(Query(vm, Sources[s], exec)).None?
    ensures VmIpAddress(vm, exec).Some? ==>
      exists s | 0 <= s < |Sources| ::
        OutputAddress(Query(vm, Sources[s], exec)) == VmIpAddress(vm, exec)
        && forall t | 0 <= t < s :: OutputAddress(Query(vm, Sources[t], exec)).None?
  {
    FirstSomeIsFirst(Answers(vm, exec), OutputAddress);
  }

  /** An address found by the lease source is returned whatever the guest
      agent or the ARP table would say. */
  lemma LeaseFirst(vm: string, exec: Invocation -> Outcome)
    requires OutputAddress(Query(vm, "lease", exec)).Some?
    ensures VmIpAddress(vm, exec) == OutputAddress(Query(vm, "lease", exec))
  {
  }

  /** `line` has at least four words and one of them offers `ip`. */
  predicate Offers(line: string, ip: string) {
    var parts := Tokens(line);
    |parts| >= 4 && exists k | 0 <= k < |parts| :: Candidate(parts[k]) == Some(ip)
  }

  /** A row offers an address only when one of its (at least four) words does. */
  lemma RowAddressOffers(line: string)
    ensures RowAddress(line).Some? ==> Offers(line, RowAddress(line).value)
  {
    if RowAddress(line).Some? {
      FirstSomeIsFirst(Tokens(line), Candidate);
    }
  }

  /** A command's table offers an address only from a row after the two
      header lines, with at least four words, one of which holds the address
      before its '/'. */
  lemma OutputAddressFromRow(r: CommandResult)
    requires OutputAddress(r).Some?
    ensures r.success
    ensures exists i | 2 <= i < |SplitOn(Strip(r.stdout), '\n')| ::
      Offers(SplitOn(Strip(r.stdout), '\n')[i], OutputAddress(r).value)
  {
    var lines := SplitOn(Strip(r.stdout), '\n');
    var rows := TableRows(r.stdout);
    var a := OutputAddress(r);
    assert r.success && a == FirstSome(rows, RowAddress);
    FirstSomeIsFirst(rows, RowAddress);
    var j :| 0 <= j < |rows| && RowAddress(rows[j]) == a;
    assert |lines| > 2 && rows == lines[2..];
    RowAddressOffers(rows[j]);
    assert lines[j + 2] == rows[j];
  }

  /** A word with a '/' whose text before it is `ip` offers `ip` exactly when
      `ip` is usable. */
  lemma CandidateOfAddress(ip: string, mask: string)
    requires '.' in ip && '/' !in ip
    ensures Candidate(ip + "/" + mask) == (if Usable(ip) then Some(ip) else None)
  {
    var part := ip + "/" + mask;
    assert part[|ip|] == '/';
    assert part[..|ip|] == ip;
    assert Before(part, '/') == ip;
    assert '.' in part by { var d :| 0 <= d < |ip| && ip[d] == '.'; assert part[d] == '.'; }
  }

  /** The loopback address is never returned. */
  lemma LoopbackRejected(mask: string)
    ensures Candidate("127.0.0.1/" + mask) == None
  {
    assert "127.0.0.1/" + mask == "127.0.0.1" + "/" + mask;
    assert "127.0.0.1"[3] == '.';
    CandidateOfAddress("127.0.0.1", mask);
  }

  /** A word with no '.' (an IPv6 address or a MAC address) offers nothing. */
  lemma NoDotNoCandidate(part: string)
    requires '.' !in part
    ensures Candidate(part) == None
  {
  }

  /** Every dotted quad of octets is offered with any mask, unless it is the
      loopback address or its first octet is exactly "0". */
  lemma QuadAccepted(a: string, b: string, c: string, d: string, mask: string)
    requires Octet(a) && Octet(b) && Octet(c) && Octet(d)
    requires a != "0" && a + "." + b + "." + c + "." + d != "127.0.0.1"
    ensures var ip := a + "." + b + "." + c + "." + d;
      Candidate(ip + "/" + mask) == Some(ip)
  {
    var ip := a + "." + b + "." + c + "." + d;
    assert ip == a + "." + (b + "." + (c + "." + d));
    assert '.' !in a && '.' !in b && '.' !in c && '.' !in d;
    SplitOnWhole(d, '.');
    SplitOnPiece(c, d, '.');
    SplitOnPiece(b, c + "." + d, '.');
    SplitOnPiece(a, b + "." + (c + "." + d), '.');
    assert SplitOn(ip, '.') == [a, b, c, d];
    assert !StartsWith(ip, "0.") by {
      if |a| == 1 {
        assert ip[0] == a[0] && a == [a[0]];
      } else {
        assert ip[1] == a[1];
      }
    }
    assert Usable(ip);
    assert '/' !in ip by {
      forall k | 0 <= k < |ip| ensures ip[k] != '/' {
        assert ip[k] in a || ip[k] in b || ip[k] in c || ip[k] in d || ip[k] == '.';
      }
    }
    assert ip[|a|] == '.';
    CandidateOfAddress(ip, mask);
  }
}
