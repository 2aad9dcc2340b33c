/**
 * `VMManager.list_all_vms`: the table printed by `virsh list --all`, reduced
 * to the configured machines.
 */
module VmList {
  import opened Base
  import opened Text

  /** The machines the panel manages (`self.vm_names`). */
  const VmNames: seq<string> := ["manjaro1", "manjaro2"]

  /** One row of the listing: `{'id', 'name', 'state', 'running'}`. */
  datatype VmEntry = VmEntry(id: Option<string>, name: string, state: string, running: bool)

  /** The two state texts, English and Spanish, that count as running. */
  predicate IsRunningState(state: string) {
    state == "running" || state == "ejecutando"
  }

  /** What a single table row contributes: nothing for blank rows, rows of
      fewer than three words and machines outside the configuration. */
  function RowEntry(line: string, names: seq<string>): (r: Option<VmEntry>)
    ensures r.Some? ==> r.value.name in names && (r.value.running <==> IsRunningState(r.value.state))
  {
    if Strip(line) == "" then None
    else
      var parts := Tokens(line);
      if |parts| < 3 then None
      else
        var id := if parts[0] != "-" then Some(parts[0]) else None;
        var state := JoinWith(parts[2..], " ");
        if parts[1] in names then Some(VmEntry(id, parts[1], state, IsRunningState(state)))
        else None
  }

  /** A row is listed exactly when it is not blank, has at least three
      words and names a configured machine; the entry takes the first word
      as id (none for `-`), the second as name, and the rest, joined by
      single spaces, as state. */
  lemma RowEntryMeaning(line: string, names: seq<string>)
    ensures var r := RowEntry(line, names);
      && (r.Some? <==> Strip(line) != "" && |Tokens(line)| >= 3 && Tokens(line)[1] in names)
      && (r.Some? ==>
            && r.value.name == Tokens(line)[1]
            && (r.value.id.None? <==> Tokens(line)[0] == "-")
            && (r.value.id.Some? ==> r.value.id.value == Tokens(line)[0])
            && r.value.state == JoinWith(Tokens(line)[2..], " ")
            && (r.value.running <==> IsRunningState(r.value.state)))
  {
  }

  /** The rows a list of table lines contributes, in order. */
  function Entries(lines: seq<string>, names: seq<string>): seq<VmEntry> {
    if |lines| == 0 then []
    else
      var last := RowEntry(lines[|lines| - 1], names);
      Entries(lines[..|lines| - 1], names) + (if last.Some? then [last.value] else [])
  }

  /** The table rows: everything after the two header lines of the stripped output. */
  function TableRows(stdout: string): seq<string> {
    var lines := SplitOn(Strip(stdout), '\n');
    if |lines| <= 2 then [] else lines[2..]
  }

  /** The listing as a function of the command's result. */
  function ListedVms(success: bool, stdout: string, names: seq<string>): seq<VmEntry> {
    if !success then [] else Entries(TableRows(stdout), names)
  }

  /** `list_all_vms()`, given what `virsh list --all` returned. */
  method ListAllVms(success: bool, stdout: string, names: seq<string>) returns (vms: seq<VmEntry>)
    ensures vms == ListedVms(success, stdout, names)
  {
    if !success {
      return [];
    }
    vms := [];
    var lines := TableRows(stdout);
    var i := 0;
    while i < |lines|
      invariant 0 <= i <= |lines|
      invariant vms == Entries(lines[..i], names)
    {
      EntriesNext(lines, i, names);
      var row := ReadRow(lines[i], names);
      vms := vms + row;
      i := i + 1;
    }
    assert lines[..i] == lines;
  }

  /** The entry one row of the table yields, if any. */
  method ReadRow(line: string, names: seq<string>) returns (row: seq<VmEntry>)
    ensures row == Contribution(line, names)
  {
    row := [];
    if Strip(line) != "" {
      var parts := Tokens(line);
      if |parts| >= 3 {
        var id := if parts[0] != "-" then Some(parts[0]) else None;
        var name := parts[1];
        var state := JoinWith(parts[2..], " ");
        if name in names {
          row := [VmEntry(id, name, state, IsRunningState(state))];
        }
      }
    }
  }

  /** What one row adds to the listing. */
  function Contribution(line: string, names: seq<string>): seq<VmEntry> {
    var e := RowEntry(line, names);
    if e.Some? then [e.value] else []
  }

  lemma EntriesNext(lines: seq<string>, i: nat, names: seq<string>)
    requires i < |lines|
    ensures Entries(lines[..i + 1], names) == Entries(lines[..i], names) + Contribution(lines[i], names)
  {
    assert lines[..i + 1][..i] == lines[..i];
  }

  /** Every listed machine comes from some row of the table, and every row
      that names a configured machine is listed. */
  lemma {:induction false} EntriesFromRows(lines: seq<string>, names: seq<string>)
    ensures forall e | e in Entries(lines, names) :: exists i | 0 <= i < |lines| :: RowEntry(lines[i], names) == Some(e)
    ensures forall i | 0 <= i < |lines| :: RowEntry(lines[i], names).Some? ==> RowEntry(lines[i], names).value in Entries(lines, names)
    ensures |Entries(lines, names)| <= |lines|
  {
    if |lines| > 0 {
      var init := lines[..|lines| - 1];
      var last := lines[|lines| - 1];
      EntriesFromRows(init, names);
      forall i | 0 <= i < |init| ensures lines[i] == init[i] { }
    }
  }

  /** Only configured machines are listed, and each is marked running exactly
      when its state is one of the two running texts. */
  lemma OnlyConfiguredMachines(success: bool, stdout: string, names: seq<string>)
    ensures forall e | e in ListedVms(success, stdout, names) ::
      e.name in names && (e.running <==> IsRunningState(e.state))
  {
    if success {
      EntriesFromRows(TableRows(stdout), names);
    }
  }

  /** The order of the rows is kept: appending a row appends its entry. */
  lemma {:induction false} EntriesAppend(lines: seq<string>, more: seq<string>, names: seq<string>)
    ensures Entries(lines + more, names) == Entries(lines, names) + Entries(more, names)
    decreases |more|
  {
    if |more| > 0 {
      var m := more[..|more| - 1];
      EntriesAppend(lines, m, names);
      assert (lines + more)[..|lines + more| - 1] == lines + m;
    } else {
      assert lines + more == lines;
    }
  }

  /** A row naming a machine outside the configuration contributes nothing. */
  lemma UnconfiguredRowIgnored(ws: seq<string>)
    requires |ws| >= 3 && forall k :: 0 <= k < |ws| ==> IsToken(ws[k])
    requires ws[1] !in VmNames
    ensures RowEntry(JoinWith(ws, " "), VmNames) == None
  {
    TokensJoin(ws);
  }

  /** A configured machine with no id (`-`) in state "shut off" is listed
      with no id and not running. */
  lemma StoppedRowListed(line: string)
    requires line == JoinWith(["-", "manjaro1", "shut", "off"], " ")
    ensures RowEntry(line, VmNames) == Some(VmEntry(None, "manjaro1", "shut off", false))
  {
    var ws := ["-", "manjaro1", "shut", "off"];
    assert forall k :: 0 <= k < |ws| ==> IsToken(ws[k]);
    TokensJoin(ws);
    assert Tokens(line) == ws;
    assert ws[2..] == ["shut", "off"];
    assert JoinWith(["shut", "off"], " ") == "shut off";
    assert !IsRunningState("shut off");
    assert "manjaro1" in VmNames by { assert VmNames[0] == "manjaro1"; }
    assert Strip(line) != "" by {
      assert line == "-" + " " + "manjaro1" + " " + "shut" + " " + "off";
      assert TrimLeft(line) == line;
      assert line[|line| - 1] == 'f';
      assert TrimRight(line) == line;
    }
  }

  /** A running machine outside the configuration on one row and a stopped
      configured one on the next: only the configured one is listed. */
  lemma ListingExample(idOther: string, row1: string, row2: string)
    requires IsToken(idOther)
    requires row1 == JoinWith([idOther, "otherVM", "running"], " ")
    requires row2 == JoinWith(["-", "manjaro1", "shut", "off"], " ")
    ensures Entries([row1, row2], VmNames) == [VmEntry(None, "manjaro1", "shut off", false)]
  {
    UnconfiguredRowIgnored([idOther, "otherVM", "running"]);
    StoppedRowListed(row2);
    var rows := [row1, row2];
    assert rows[..1] == [row1];
    assert [row1][..0] == [];
    assert Entries([row1], VmNames) == [];
    assert Entries(rows, VmNames) == Entries([row1], VmNames) + [VmEntry(None, "manjaro1", "shut off", false)];
  }
}
