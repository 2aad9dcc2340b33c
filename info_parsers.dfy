/**
 * The line-oriented parsers of `VMManager` that turn the output of
 * `virsh dominfo`, `virsh dommemstat` and `virsh vcpuinfo` into dictionaries.
 * The command itself is outside the model: each parser receives the
 * `(success, stdout)` pair it would have obtained.
 */
module InfoParsers {
  import opened Base
  import opened Text

  // ---------------------------------------------------------------------------
  // Dictionaries filled line by line, the last write for a key winning
  // ---------------------------------------------------------------------------

  /** The dictionary obtained by assigning `d[key] = value` for the entry of
      each line in turn (lines without an entry are skipped). */
  function Collect<V>(lines: seq<string>, entry: string -> Option<(string, V)>): map<string, V> {
    if |lines| == 0 then map[]
    else
      var m := Collect(lines[..|lines| - 1], entry);
      var e := entry(lines[|lines| - 1]);
      if e.Some? then m[e.value.0 := e.value.1] else m
  }

  /** One more line of the loop: the dictionary gains that line's entry. */
  lemma CollectNext<V>(lines: seq<string>, i: nat, entry: string -> Option<(string, V)>)
    requires i < |lines|
    ensures Collect(lines[..i + 1], entry) ==
      var e := entry(lines[i]);
      if e.Some? then Collect(lines[..i], entry)[e.value.0 := e.value.1] else Collect(lines[..i], entry)
  {
    assert lines[..i + 1][..i] == lines[..i];
  }

  /** Some line has an entry for `k`. */
  predicate HasEntry<V>(lines: seq<string>, entry: string -> Option<(string, V)>, k: string) {
    exists i | 0 <= i < |lines| :: entry(lines[i]).Some? && entry(lines[i]).value.0 == k
  }

  /** The dictionary holds exactly the keys some line supplies, each with the
      value of the last line that supplies it. */
  lemma {:induction false} CollectLastWins<V>(lines: seq<string>, entry: string -> Option<(string, V)>, k: string)
    ensures k in Collect(lines, entry) <==> HasEntry(lines, entry, k)
    ensures k in Collect(lines, entry) ==>
      exists i | 0 <= i < |lines| ::
        entry(lines[i]) == Some((k, Collect(lines, entry)[k]))
        && !HasEntry(lines[i + 1..], entry, k)
  {
    if |lines| > 0 {
      var init := lines[..|lines| - 1];
      var last := lines[|lines| - 1];
      CollectLastWins(init, entry, k);
      var e := entry(last);
      if e.Some? && e.value.0 == k {
        assert entry(lines[|lines| - 1]) == Some((k, Collect(lines, entry)[k]));
        assert lines[|lines|..] == [];
      } else {
        if HasEntry(init, entry, k) {
          var i :| 0 <= i < |init| && entry(init[i]) == Some((k, Collect(init, entry)[k]))
            && !HasEntry(init[i + 1..], entry, k);
          assert lines[i] == init[i];
          var tail := lines[i + 1..];
          assert tail == init[i + 1..] + [last];
          forall j | 0 <= j < |tail|
            ensures !(entry(tail[j]).Some? && entry(tail[j]).value.0 == k)
          {
            if j < |init[i + 1..]| {
              assert tail[j] == init[i + 1..][j];
            } else {
              assert tail[j] == last;
            }
          }
        }
        if HasEntry(lines, entry, k) {
          var i :| 0 <= i < |lines| && entry(lines[i]).Some? && entry(lines[i]).value.0 == k;
          assert i < |init| && init[i] == lines[i];
        }
      }
      forall i | 0 <= i < |init| ensures init[i] == lines[i] { }
    }
  }

  // ---------------------------------------------------------------------------
  // get_vm_info: `virsh dominfo`
  // ---------------------------------------------------------------------------

  /** A `Key: value` line of dominfo, split at its first colon, both sides stripped. */
  function InfoEntry(line: string): (r: Option<(string, string)>)
    ensures r.Some? <==> ':' in line
  {
    if ':' in line then Some((Strip(Before(line, ':')), Strip(After(line, ':')))) else None
  }

  /** The lines of the stripped output. */
  function OutputLines(stdout: string): seq<string> {
    SplitOn(Strip(stdout), '\n')
  }

  /** `get_vm_info` as a function of the command's result. */
  function VmInfo(success: bool, stdout: string): Option<map<string, string>> {
    if !success then None else Some(Collect(OutputLines(stdout), InfoEntry))
  }

  /** `get_vm_info(vm_name)`, given what `virsh dominfo` returned. */
  method GetVmInfo(success: bool, stdout: string) returns (info: Option<map<string, string>>)
    ensures info == VmInfo(success, stdout)
  {
    if !success {
      return None;
    }
    var m: map<string, string> := map[];
    var lines := OutputLines(stdout);
    var i := 0;
    while i < |lines|
      invariant 0 <= i <= |lines|
      invariant m == Collect(lines[..i], InfoEntry)
    {
      var line := lines[i];
      CollectNext(lines, i, InfoEntry);
      if ':' in line {
        var key := Before(line, ':');
        var value := After(line, ':');
        m := m[Strip(key) := Strip(value)];
      }
      i := i + 1;
    }
    assert lines[..i] == lines;
    return Some(m);
  }

  /** A successful dominfo yields a dictionary whose keys are exactly the
      stripped texts before the first colon of some line, each holding the
      stripped text after the colon on the last line with that key. */
  lemma VmInfoKeys(stdout: string, k: string)
    ensures var m := VmInfo(true, stdout).value;
      && (k in m <==> exists i | 0 <= i < |OutputLines(stdout)| ::
            ':' in OutputLines(stdout)[i] && Strip(Before(OutputLines(stdout)[i], ':')) == k)
      && (k in m ==> exists i | 0 <= i < |OutputLines(stdout)| ::
            var line := OutputLines(stdout)[i];
            ':' in line && Strip(Before(line, ':')) == k && Strip(After(line, ':')) == m[k])
  {
    CollectLastWins(OutputLines(stdout), InfoEntry, k);
  }

  // ---------------------------------------------------------------------------
  // get_vm_memory_usage: `virsh dommemstat`
  // ---------------------------------------------------------------------------

  /** A non-blank line of at least two words names a statistic and its value text. */
  function MemoryEntry(line: string): (r: Option<(string, string)>)
    ensures r.Some? <==> Strip(line) != "" && |Tokens(line)| >= 2
    ensures r.Some? ==> |Tokens(line)| >= 2 && r.value == (Tokens(line)[0], Tokens(line)[1])
  {
    if Strip(line) != "" && |Tokens(line)| >= 2 then Some((Tokens(line)[0], Tokens(line)[1])) else None
  }

  /** The same entry with its value read by `int()`; unreadable values are the
      lines `BadMemoryLine` picks out. */
  function MemoryValue(line: string): Option<(string, int)> {
    var e := MemoryEntry(line);
    if e.Some? && ParseInt(e.value.1).Some? then Some((e.value.0, ParseInt(e.value.1).value)) else None
  }

  /** A statistic line whose value `int()` rejects. */
  predicate BadMemoryLine(line: string) {
    MemoryEntry(line).Some? && ParseInt(MemoryEntry(line).value.1).None?
  }

  /** One line of the parse as written: a statistic line adds its value, a
      rejected value fails the parse, and a failed parse stays failed. */
  function MemoryStep(m: Option<map<string, int>>, line: string): Option<map<string, int>> {
    var e := MemoryEntry(line);
    if m.None? then None
    else if e.None? then m
    else
      var v := ParseInt(e.value.1);
      if v.None? then None else Some(m.value[e.value.0 := v.value])
  }

  /** The parse as written: the dictionary so far, or nothing once an `int()` failed. */
  function MemoryScan(lines: seq<string>): Option<map<string, int>> {
    if |lines| == 0 then Some(map[])
    else MemoryStep(MemoryScan(lines[..|lines| - 1]), lines[|lines| - 1])
  }

  lemma MemoryScanNext(lines: seq<string>, i: nat)
    requires i < |lines|
    ensures MemoryScan(lines[..i + 1]) == MemoryStep(MemoryScan(lines[..i]), lines[i])
  {
    assert lines[..i + 1][..i] == lines[..i];
  }

  /** `get_vm_memory_usage` as a function of the command's result. */
  function MemoryUsage(success: bool, stdout: string): Option<map<string, int>> {
    if !success then None else MemoryScan(OutputLines(stdout))
  }

  /** `get_vm_memory_usage(vm_name)`, given what `virsh dommemstat` returned;
      the `ValueError` of `int()` ends the parse with `None`. */
  method GetVmMemoryUsage(success: bool, stdout: string) returns (usage: Option<map<string, int>>)
    ensures usage == MemoryUsage(success, stdout)
  {
    if !success {
      return None;
    }
    var m: map<string, int> := map[];
    var lines := OutputLines(stdout);
    var i := 0;
    while i < |lines|
      invariant 0 <= i <= |lines|
      invariant MemoryScan(lines[..i]) == Some(m)
    {
      MemoryScanNext(lines, i);
      var next := ReadMemoryLine(m, lines[i]);
      if next.None? {
        MemoryScanStaysFailed(lines, i + 1);
        return None;
      }
      m := next.value;
      i := i + 1;
    }
    assert lines[..i] == lines;
    return Some(m);
  }

  /** The loop body on one line: the dictionary with that line's statistic,
      or `None` when `int()` rejects its value. */
  method ReadMemoryLine(m: map<string, int>, line: string) returns (r: Option<map<string, int>>)
    ensures r == MemoryStep(Some(m), line)
  {
    r := Some(m);
    if Strip(line) != "" {
      var parts := Tokens(line);
      if |parts| >= 2 {
        var value := ParseInt(parts[1]);
        if value.None? {
          return None;
        }
        r := Some(m[parts[0] := value.value]);
      }
    }
  }

  /** Once the parse has failed, later lines cannot revive it. */
  lemma {:induction false} MemoryScanStaysFailed(lines: seq<string>, n: nat)
    requires n <= |lines|
    requires MemoryScan(lines[..n]).None?
    ensures MemoryScan(lines).None?
    decreases |lines| - n
  {
    if n < |lines| {
      MemoryScanNext(lines, n);
      MemoryScanStaysFailed(lines, n + 1);
    } else {
      assert lines[..n] == lines;
    }
  }

  /** Some statistic line has an unreadable value. */
  predicate AnyBadMemoryLine(lines: seq<string>) {
    AnyLine(lines, BadMemoryLine)
  }

  /** One unreadable value anywhere discards the whole result. */
  lemma {:induction false} MemoryScanFails(lines: seq<string>)
    ensures MemoryScan(lines).None? <==> AnyBadMemoryLine(lines)
  {
    if |lines| > 0 {
      MemoryScanFails(lines[..|lines| - 1]);
      AnyLineSnoc(lines, BadMemoryLine);
    }
  }

  /** Without an unreadable value the result is the dictionary of every
      statistic line, the last one for a name winning. */
  lemma {:induction false} MemoryScanCollects(lines: seq<string>)
    requires MemoryScan(lines).Some?
    ensures MemoryScan(lines).value == Collect(lines, MemoryValue)
  {
    if |lines| > 0 {
      var init := lines[..|lines| - 1];
      var last := lines[|lines| - 1];
      assert MemoryScan(init).Some?;
      MemoryScanCollects(init);
      var e := MemoryEntry(last);
      if e.None? {
        assert MemoryValue(last).None?;
      } else {
        assert MemoryValue(last) == Some((e.value.0, ParseInt(e.value.1).value));
      }
    }
  }

  /** A successful dommemstat with readable values yields a dictionary
      holding exactly the statistics named on some line, each with the value
      read from the last line naming it; one unreadable value yields `None`. */
  lemma MemoryUsageKeys(stdout: string, k: string)
    ensures MemoryUsage(true, stdout).None? <==> AnyBadMemoryLine(OutputLines(stdout))
    ensures MemoryUsage(true, stdout).Some? ==>
      var lines := OutputLines(stdout);
      var m := MemoryUsage(true, stdout).value;
      && (k in m <==> HasEntry(lines, MemoryValue, k))
      && (k in m ==> exists i | 0 <= i < |lines| ::
            MemoryValue(lines[i]) == Some((k, m[k])) && !HasEntry(lines[i + 1..], MemoryValue, k))
  {
    var lines := OutputLines(stdout);
    MemoryScanFails(lines);
    if MemoryScan(lines).Some? {
      MemoryScanCollects(lines);
      CollectLastWins(lines, MemoryValue, k);
    }
  }

  // ---------------------------------------------------------------------------
  // get_vm_vcpu_info: `virsh vcpuinfo`
  // ---------------------------------------------------------------------------

  /** A vCPU block key: stripped, lower-cased, spaces turned into underscores. */
  function VcpuKey(raw: string): (k: string)
    ensures ' ' !in k
    ensures forall c | c in k :: !('A' <= c <= 'Z')
  {
    ReplaceChar(Lower(Strip(raw)), ' ', '_')
  }

  /** The scan state: the finished blocks and the block being filled. */
  datatype VcpuScan = VcpuScan(blocks: seq<map<string, string>>, current: map<string, string>)

  /** One line of the scan: a blank line closes a non-empty block, a line with a
      colon adds a key, anything else is skipped. */
  function VcpuStep(st: VcpuScan, raw: string): VcpuScan {
    var line := Strip(raw);
    if line == "" then
      if st.current != map[] then VcpuScan(st.blocks + [st.current], map[]) else st
    else if ':' in line then
      VcpuScan(st.blocks, st.current[VcpuKey(Before(line, ':')) := Strip(After(line, ':'))])
    else st
  }

  function VcpuScanLines(lines: seq<string>): VcpuScan {
    if |lines| == 0 then VcpuScan([], map[])
    else VcpuStep(VcpuScanLines(lines[..|lines| - 1]), lines[|lines| - 1])
  }

  /** The blocks once the last one is closed. */
  function VcpuBlocks(stdout: string): seq<map<string, string>> {
    var st := VcpuScanLines(SplitOn(stdout, '\n'));
    if st.current != map[] then st.blocks + [st.current] else st.blocks
  }

  /** `get_vm_vcpu_info` as a function of the command's result. */
  function VcpuInfo(success: bool, stdout: string): Option<seq<map<string, string>>> {
    if !success then None
    else if VcpuBlocks(stdout) == [] then None
    else Some(VcpuBlocks(stdout))
  }

  /** `get_vm_vcpu_info(vm_name)`, given what `virsh vcpuinfo` returned. */
  method GetVmVcpuInfo(success: bool, stdout: string) returns (info: Option<seq<map<string, string>>>)
    ensures info == VcpuInfo(success, stdout)
  {
    if !success {
      return None;
    }
    var vcpus: seq<map<string, string>> := [];
    var current: map<string, string> := map[];
    var lines := SplitOn(stdout, '\n');
    var i := 0;
    while i < |lines|
      invariant 0 <= i <= |lines|
      invariant VcpuScanLines(lines[..i]) == VcpuScan(vcpus, current)
    {
      assert lines[..i + 1][..i] == lines[..i];
      ghost var before := VcpuScan(vcpus, current);
      var line := Strip(lines[i]);
      if line == "" {
        if current != map[] {
          vcpus := vcpus + [current];
          current := map[];
        }
      } else if ':' in line {
        var key := VcpuKey(Before(line, ':'));
        var value := Strip(After(line, ':'));
        current := current[key := value];
      }
      assert VcpuScan(vcpus, current) == VcpuStep(before, lines[i]);
      i := i + 1;
    }
    assert lines[..i] == lines;
    if current != map[] {
      vcpus := vcpus + [current];
    }
    if vcpus == [] {
      return None;
    }
    return Some(vcpus);
  }

  /** A line that contributes a key to a block. */
  predicate KeyLine(raw: string) {
    ':' in Strip(raw)
  }

  /** A key free of spaces and capital letters. */
  predicate CleanKey(k: string) {
    ' ' !in k && forall c | c in k :: !('A' <= c <= 'Z')
  }

  /** Every finished block is non-empty and every key, finished or not, is clean. */
  predicate WellFormedScan(st: VcpuScan) {
    && (forall b | b in st.blocks :: b != map[])
    && (forall b | b in st.blocks :: forall k | k in b :: CleanKey(k))
    && (forall k | k in st.current :: CleanKey(k))
  }

  lemma {:induction false} VcpuScanWellFormed(lines: seq<string>)
    ensures WellFormedScan(VcpuScanLines(lines))
  {
    if |lines| > 0 {
      VcpuScanWellFormed(lines[..|lines| - 1]);
      VcpuStepWellFormed(VcpuScanLines(lines[..|lines| - 1]), lines[|lines| - 1]);
    }
  }

  lemma VcpuStepWellFormed(st: VcpuScan, raw: string)
    requires WellFormedScan(st)
    ensures WellFormedScan(VcpuStep(st, raw))
  {
    var line := Strip(raw);
    if line == "" {
      if st.current != map[] {
        var blocks := st.blocks + [st.current];
        assert VcpuStep(st, raw) == VcpuScan(blocks, map[]);
        forall b | b in blocks
          ensures b != map[] && forall k | k in b :: CleanKey(k)
        {
          if b != st.current {
            assert b in st.blocks;
          }
        }
      }
    } else if ':' in line {
      var key := VcpuKey(Before(line, ':'));
      var current := st.current[key := Strip(After(line, ':'))];
      assert VcpuStep(st, raw) == VcpuScan(st.blocks, current);
      assert CleanKey(key);
    }
  }

  /** The scan has collected at least one key. */
  predicate Seen(st: VcpuScan) {
    st.blocks != [] || st.current != map[]
  }

  /** A step keeps what was seen, and sees something new exactly on a key line. */
  lemma VcpuStepSeen(st: VcpuScan, raw: string)
    ensures Seen(VcpuStep(st, raw)) <==> Seen(st) || KeyLine(raw)
  {
    var line := Strip(raw);
    if line != "" && ':' in line {
      var st' := VcpuStep(st, raw);
      assert VcpuKey(Before(line, ':')) in st'.current;
    }
  }

  /** The scan has collected something exactly when some line held a colon. */
  lemma {:induction false} VcpuScanSeesKeyLines(lines: seq<string>)
    ensures Seen(VcpuScanLines(lines)) <==> AnyLine(lines, KeyLine)
  {
    if |lines| > 0 {
      var init := lines[..|lines| - 1];
      VcpuScanSeesKeyLines(init);
      VcpuStepSeen(VcpuScanLines(init), lines[|lines| - 1]);
      AnyLineSnoc(lines, KeyLine);
    }
  }

  /** `get_vm_vcpu_info` reports `None` exactly when the command failed or no
      line held a colon; every reported block is non-empty and its keys are
      lower case without spaces. */
  lemma VcpuInfoShape(success: bool, stdout: string)
    ensures VcpuInfo(success, stdout).None? <==>
      !success || !AnyLine(SplitOn(stdout, '\n'), KeyLine)
    ensures VcpuInfo(success, stdout).Some? ==>
      forall b | b in VcpuInfo(success, stdout).value :: b != map[] && forall k | k in b :: CleanKey(k)
  {
    var lines := SplitOn(stdout, '\n');
    var st := VcpuScanLines(lines);
    VcpuScanWellFormed(lines);
    VcpuScanSeesKeyLines(lines);
    var blocks := VcpuBlocks(stdout);
    assert blocks == if st.current != map[] then st.blocks + [st.current] else st.blocks;
    assert blocks == [] <==> !Seen(st);
    forall b | b in blocks ensures b != map[] && forall k | k in b :: CleanKey(k) {
      if b !in st.blocks {
        assert b == st.current;
      }
    }
  }

  // The blocks described without the scan: the output cut at its blank lines,
  // and each run's `key: value` lines collected into a dictionary.

  /** A `vcpuinfo` line's entry: the stripped line split at its first colon,
      the key normalised and the value stripped; no entry without a colon. */
  function VcpuEntry(raw: string): Option<(string, string)> {
    var line := Strip(raw);
    if ':' in line then Some((VcpuKey(Before(line, ':')), Strip(After(line, ':')))) else None
  }

  /** The runs of lines between blank lines, in order, empty runs included. */
  function BlankSeparated(lines: seq<string>): (runs: seq<seq<string>>)
    ensures |runs| >= 1
  {
    if |lines| == 0 then [[]] else NextRuns(BlankSeparated(lines[..|lines| - 1]), lines[|lines| - 1])
  }

  /** One more line: a blank line opens a new run, any other line joins the
      last run. */
  function NextRuns(runs: seq<seq<string>>, l: string): (runs': seq<seq<string>>)
    requires |runs| >= 1
    ensures |runs'| >= 1
  {
    if Strip(l) == "" then runs + [[]] else runs[..|runs| - 1] + [runs[|runs| - 1] + [l]]
  }

  /** The lines that are not blank, in order. */
  function NonBlank(lines: seq<string>): seq<string> {
    if |lines| == 0 then []
    else NonBlank(lines[..|lines| - 1]) + (if Strip(lines[|lines| - 1]) == "" then [] else [lines[|lines| - 1]])
  }

  /** The runs one after the other. */
  function Concat(runs: seq<seq<string>>): seq<string> {
    if |runs| == 0 then [] else Concat(runs[..|runs| - 1]) + runs[|runs| - 1]
  }

  /** Cutting at blank lines drops exactly the blank lines: put together,
      the runs are the other lines in order, and there is one run more than
      there are blank lines. */
  lemma {:induction false} BlankSeparatedKeepsLines(lines: seq<string>)
    ensures Concat(BlankSeparated(lines)) == NonBlank(lines)
    ensures |BlankSeparated(lines)| == 1 + |lines| - |NonBlank(lines)|
  {
    if |lines| > 0 {
      var init := lines[..|lines| - 1];
      var l := lines[|lines| - 1];
      BlankSeparatedKeepsLines(init);
      var runs := BlankSeparated(init);
      var n := |runs|;
      if Strip(l) == "" {
        assert (runs + [[]])[..n] == runs;
      } else {
        var runs' := runs[..n - 1] + [runs[n - 1] + [l]];
        assert runs'[..n - 1] == runs[..n - 1];
        assert Concat(runs) == Concat(runs[..n - 1]) + runs[n - 1];
        assert Concat(runs') == Concat(runs[..n - 1]) + (runs[n - 1] + [l]);
      }
    }
  }

  /** No run holds a blank line. */
  predicate NoBlankLine(runs: seq<seq<string>>) {
    forall i, j | 0 <= i < |runs| && 0 <= j < |runs[i]| :: Strip(runs[i][j]) != ""
  }

  lemma {:induction false} RunsHaveNoBlankLine(lines: seq<string>)
    ensures NoBlankLine(BlankSeparated(lines))
  {
    if |lines| > 0 {
      RunsHaveNoBlankLine(lines[..|lines| - 1]);
      NextRunsNoBlankLine(BlankSeparated(lines[..|lines| - 1]), lines[|lines| - 1]);
    }
  }

  lemma NextRunsNoBlankLine(runs: seq<seq<string>>, l: string)
    requires |runs| >= 1 && NoBlankLine(runs)
    ensures NoBlankLine(NextRuns(runs, l))
  {
    var n := |runs|;
    var runs' := NextRuns(runs, l);
    forall i, j | 0 <= i < |runs'| && 0 <= j < |runs'[i]|
      ensures Strip(runs'[i][j]) != ""
    {
      if Strip(l) == "" {
        assert i < n && runs'[i] == runs[i];
      } else if i < n - 1 {
        assert runs'[i] == runs[i];
      } else if j < |runs[n - 1]| {
        assert runs'[i][j] == runs[i][j];
      } else {
        assert runs'[i][j] == l;
      }
    }
  }

  /** The dictionaries of the runs that supply at least one entry, in order. */
  function KeyedBlocks(runs: seq<seq<string>>): seq<map<string, string>> {
    if |runs| == 0 then []
    else
      var b := Collect(runs[|runs| - 1], VcpuEntry);
      KeyedBlocks(runs[..|runs| - 1]) + (if b != map[] then [b] else [])
  }

  /** The scan after some lines: its finished blocks are those of the closed
      runs, and the block being filled is the open run's dictionary. */
  lemma {:induction false} VcpuScanFollowsRuns(lines: seq<string>)
    ensures var runs := BlankSeparated(lines);
      var st := VcpuScanLines(lines);
      && st.blocks == KeyedBlocks(runs[..|runs| - 1])
      && st.current == Collect(runs[|runs| - 1], VcpuEntry)
  {
    if |lines| > 0 {
      var init := lines[..|lines| - 1];
      VcpuScanFollowsRuns(init);
      VcpuStepFollowsRuns(BlankSeparated(init), VcpuScanLines(init), lines[|lines| - 1]);
    }
  }

  /** The step of the scan and the step of the runs keep the two in step. */
  lemma VcpuStepFollowsRuns(runs: seq<seq<string>>, st: VcpuScan, l: string)
    requires |runs| >= 1
    requires st.blocks == KeyedBlocks(runs[..|runs| - 1]) && st.current == Collect(runs[|runs| - 1], VcpuEntry)
    ensures var runs' := NextRuns(runs, l);
      && VcpuStep(st, l).blocks == KeyedBlocks(runs'[..|runs'| - 1])
      && VcpuStep(st, l).current == Collect(runs'[|runs'| - 1], VcpuEntry)
  {
    if Strip(l) == "" {
      BlankLineClosesRun(runs, st, l);
    } else {
      var n := |runs|;
      var open := runs[n - 1];
      var runs' := runs[..n - 1] + [open + [l]];
      assert NextRuns(runs, l) == runs';
      assert runs'[..n - 1] == runs[..n - 1];
      CollectSnoc(open, l);
      VcpuStepAddsEntry(st, l);
    }
  }

  /** A blank line closes the open run; its dictionary becomes a finished
      block when it is not empty. */
  lemma BlankLineClosesRun(runs: seq<seq<string>>, st: VcpuScan, l: string)
    requires |runs| >= 1 && Strip(l) == ""
    requires st.blocks == KeyedBlocks(runs[..|runs| - 1]) && st.current == Collect(runs[|runs| - 1], VcpuEntry)
    ensures VcpuStep(st, l).blocks == KeyedBlocks(runs)
    ensures VcpuStep(st, l).current == map[]
  {
  }

  /** Collecting one more line. */
  lemma CollectSnoc(run: seq<string>, l: string)
    ensures Collect(run + [l], VcpuEntry) ==
      var e := VcpuEntry(l);
      if e.Some? then Collect(run, VcpuEntry)[e.value.0 := e.value.1] else Collect(run, VcpuEntry)
  {
    assert (run + [l])[..|run|] == run;
  }

  /** On a line that is not blank, the scan adds the line's entry, if any, to
      the block being filled. */
  lemma VcpuStepAddsEntry(st: VcpuScan, l: string)
    requires Strip(l) != ""
    ensures VcpuStep(st, l).blocks == st.blocks
    ensures VcpuStep(st, l).current ==
      var e := VcpuEntry(l);
      if e.Some? then st.current[e.value.0 := e.value.1] else st.current
  {
    var line := Strip(l);
    if ':' in line {
      var key, value := VcpuKey(Before(line, ':')), Strip(After(line, ':'));
      assert VcpuEntry(l) == Some((key, value));
      assert VcpuStep(st, l) == VcpuScan(st.blocks, st.current[key := value]);
    } else {
      assert VcpuEntry(l) == None;
      assert VcpuStep(st, l) == st;
    }
  }

  /** A run yields a block exactly when one of its lines holds a colon. */
  lemma RunKeyedIffKeyLine(run: seq<string>)
    ensures Collect(run, VcpuEntry) != map[] <==> exists i | 0 <= i < |run| :: KeyLine(run[i])
  {
    var m := Collect(run, VcpuEntry);
    if m != map[] {
      var k :| k in m;
      CollectLastWins(run, VcpuEntry, k);
      var i :| 0 <= i < |run| && VcpuEntry(run[i]).Some? && VcpuEntry(run[i]).value.0 == k;
      assert KeyLine(run[i]);
    }
    if exists i | 0 <= i < |run| :: KeyLine(run[i]) {
      var i :| 0 <= i < |run| && KeyLine(run[i]);
      var k := VcpuEntry(run[i]).value.0;
      CollectLastWins(run, VcpuEntry, k);
      assert k in m;
    }
  }

  /** `get_vm_vcpu_info` in full: one dictionary per blank-line-separated run
      of the output that has a `key: value` line, in order, each built by
      assigning the entries of its lines in turn (so the last one for a key
      wins); `None` when the command failed or no run has an entry. */
  lemma VcpuInfoFromRuns(success: bool, stdout: string)
    ensures var blocks := KeyedBlocks(BlankSeparated(SplitOn(stdout, '\n')));
      VcpuInfo(success, stdout) == if !success || blocks == [] then None else Some(blocks)
  {
    var lines := SplitOn(stdout, '\n');
    var runs := BlankSeparated(lines);
    var st := VcpuScanLines(lines);
    VcpuScanFollowsRuns(lines);
    assert KeyedBlocks(runs) == st.blocks + (if st.current != map[] then [st.current] else []);
    assert VcpuBlocks(stdout) == KeyedBlocks(runs);
  }
}
