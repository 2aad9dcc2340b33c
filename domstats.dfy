/**
 * `VMManager.get_vm_detailed_stats`: the `key=value` lines of `virsh domstats`
 * folded into one statistics record. Exact keys set their field (the last
 * line wins); `vcpu.*.time`, `block.*` and `net.*` keys add into a total.
 * The record is a map from field to value: a field that Python leaves at
 * `None` is absent from the map.
 */
module DomStats {
  import opened Base
  import opened Text

  /** The keys of the returned dictionary, in the order they are declared. */
  datatype Field =
    | VcpuCount | VcpuCurrent | VcpuTime
    | CpuTime | CpuUser | CpuSystem
    | MemoryActual | MemoryAvailable | MemoryUnused | MemoryUsable | MemoryRss
    | BlockCount | BlockCapacity | BlockAllocation | BlockPhysical
    | BlockReadBytes | BlockWriteBytes | BlockReadReqs | BlockWriteReqs
    | BlockReadTotalTimes | BlockWriteTotalTimes
    | NetRxBytes | NetTxBytes | NetRxPkts | NetTxPkts | NetRxDrop | NetTxDrop

  /** The fields summed over devices (and over vCPUs for `vcpu_time`). */
  predicate IsAggregate(f: Field) {
    match f
    case VcpuTime | BlockCapacity | BlockAllocation | BlockPhysical | BlockReadBytes | BlockWriteBytes
       | BlockReadReqs | BlockWriteReqs | BlockReadTotalTimes | BlockWriteTotalTimes
       | NetRxBytes | NetTxBytes | NetRxPkts | NetTxPkts | NetRxDrop | NetTxDrop => true
    case _ => false
  }

  /** A field that is a total. */
  type Aggregate = f: Field | IsAggregate(f) witness VcpuTime

  /** A field set by one exact key. */
  type Exact = f: Field | !IsAggregate(f) witness VcpuCount

  type Stats = map<Field, int>

  /** The record before any line is read: `block_count` and every device total
      at 0, every other field `None`. */
  const Initial: Stats := map[
    BlockCount := 0, BlockCapacity := 0, BlockAllocation := 0, BlockPhysical := 0,
    BlockReadBytes := 0, BlockWriteBytes := 0, BlockReadReqs := 0, BlockWriteReqs := 0,
    BlockReadTotalTimes := 0, BlockWriteTotalTimes := 0,
    NetRxBytes := 0, NetTxBytes := 0, NetRxPkts := 0, NetTxPkts := 0, NetRxDrop := 0, NetTxDrop := 0]

  /** What a key does to the record. */
  datatype Action = Ignore | Assign(exact: Exact) | Accumulate(total: Aggregate)

  /** The per-device patterns under `block.`, in the order they are tried. */
  const BlockPatterns: seq<(string, Aggregate)> := [
    (".capacity", BlockCapacity), (".allocation", BlockAllocation), (".physical", BlockPhysical),
    (".rd.bytes", BlockReadBytes), (".wr.bytes", BlockWriteBytes),
    (".rd.reqs", BlockReadReqs), (".wr.reqs", BlockWriteReqs),
    (".rd.times", BlockReadTotalTimes), (".wr.times", BlockWriteTotalTimes)]

  /** The per-interface patterns under `net.`, in the order they are tried. */
  const NetPatterns: seq<(string, Aggregate)> := [
    (".rx.bytes", NetRxBytes), (".tx.bytes", NetTxBytes), (".rx.pkts", NetRxPkts),
    (".tx.pkts", NetTxPkts), (".rx.drop", NetRxDrop), (".tx.drop", NetTxDrop)]

  /** The field of the first pattern the key contains. */
  function FirstPattern(key: string, patterns: seq<(string, Aggregate)>): (r: Option<Aggregate>)
    ensures r.Some? ==> exists i | 0 <= i < |patterns| ::
      (patterns[i].1 == r.value && Contains(key, patterns[i].0)
       && forall j | 0 <= j < i :: !Contains(key, patterns[j].0))
    ensures r.None? <==> forall i | 0 <= i < |patterns| :: !Contains(key, patterns[i].0)
  {
    if |patterns| == 0 then None
    else if Contains(key, patterns[0].0) then Some(patterns[0].1)
    else
      var r := FirstPattern(key, patterns[1..]);
      assert forall i | 1 <= i < |patterns| :: patterns[i] == patterns[1..][i - 1];
      r
  }

  /** The `if`/`elif` chain over the key. */
  function Classify(key: string): Action {
    if key == "cpu.time" then Assign(CpuTime)
    else if key == "cpu.user" then Assign(CpuUser)
    else if key == "cpu.system" then Assign(CpuSystem)
    else if key == "vcpu.current" then Assign(VcpuCurrent)
    else if key == "vcpu.maximum" then Assign(VcpuCount)
    else if StartsWith(key, "vcpu.") && EndsWith(key, ".time") then Accumulate(VcpuTime)
    else if key == "balloon.current" then Assign(MemoryActual)
    else if key == "balloon.maximum" then Assign(MemoryAvailable)
    else if key == "memory.unused" then Assign(MemoryUnused)
    else if key == "memory.usable" then Assign(MemoryUsable)
    else if key == "memory.rss" then Assign(MemoryRss)
    else if key == "block.count" then Assign(BlockCount)
    else DeviceKey(key)
  }

  /** The rest of the chain: the per-device patterns of disks, then of
      network interfaces. */
  function DeviceKey(key: string): Action {
    if StartsWith(key, "block.") && FirstPattern(key, BlockPatterns).Some? then
      Accumulate(FirstPattern(key, BlockPatterns).value)
    else if StartsWith(key, "net.") && FirstPattern(key, NetPatterns).Some? then
      Accumulate(FirstPattern(key, NetPatterns).value)
    else Ignore
  }

  /** A stripped line holding `=`, split at the first `=`, both sides stripped. */
  datatype KeyValue = KeyValue(key: string, value: string)

  function ParseLine(raw: string): (r: Option<KeyValue>)
    ensures r.Some? <==> '=' in Strip(raw)
  {
    var line := Strip(raw);
    if '=' in line then Some(KeyValue(Strip(Before(line, '=')), Strip(After(line, '=')))) else None
  }

  /** What one line amounts to: the action of its key (nothing for a line
      without `=` or with an unrecognised key) and its value read by `int()`. */
  datatype Item = Item(action: Action, value: Option<int>)

  function ItemOf(raw: string): Item {
    var kv := ParseLine(raw);
    if kv.None? then Item(Ignore, None) else Item(Classify(kv.value.key), ParseInt(kv.value.value))
  }

  /** The item of every line, in order. */
  function Items(lines: seq<string>): (r: seq<Item>)
    ensures |r| == |lines|
  {
    if |lines| == 0 then [] else Items(lines[..|lines| - 1]) + [ItemOf(lines[|lines| - 1])]
  }

  lemma {:induction false} ItemsAt(lines: seq<string>, i: nat)
    requires i < |lines|
    ensures Items(lines)[i] == ItemOf(lines[i])
  {
    if i < |lines| - 1 {
      ItemsAt(lines[..|lines| - 1], i);
    }
  }

  /** A recognised key whose value `int()` rejects. */
  predicate Bad(it: Item) {
    it.action != Ignore && it.value.None?
  }

  /** The effect of one line, or `None` when it raises. */
  function Apply(s: Stats, it: Item): Option<Stats> {
    match it.action
    case Ignore => Some(s)
    case Assign(f) => if it.value.None? then None else Some(s[f := it.value.value])
    case Accumulate(f) => if it.value.None? then None else Some(s[f := (if f in s then s[f] else 0) + it.value.value])
  }

  /** The record after the given lines, or `None` once one of them raised. */
  function Fold(items: seq<Item>): Option<Stats> {
    if |items| == 0 then Some(Initial)
    else
      var s := Fold(items[..|items| - 1]);
      if s.None? then None else Apply(s.value, items[|items| - 1])
  }

  /** `get_vm_detailed_stats` as a function of the command's result. */
  function DetailedStats(success: bool, stdout: string): Option<Stats> {
    if !success then None else Fold(Items(SplitOn(stdout, '\n')))
  }

  /** One more line of the loop: the record is the previous one with that
      line's item applied. */
  lemma FoldNext(items: seq<Item>, i: nat, before: Stats, it: Item)
    requires i < |items|
    requires Fold(items[..i]) == Some(before)
    requires items[i] == it
    ensures Fold(items[..i + 1]) == Apply(before, it)
  {
    assert items[..i + 1][..i] == items[..i];
  }

  /** The body of the loop up to the `if` chain: strip the line, skip it
      without `=`, split at the first `=`, classify the key and read the value. */
  method ReadLine(raw: string) returns (it: Item)
    ensures it == ItemOf(raw)
  {
    var line := Strip(raw);
    if '=' !in line {
      return Item(Ignore, None);
    }
    var key := Strip(Before(line, '='));
    var value := Strip(After(line, '='));
    return Item(Classify(key), ParseInt(value));
  }

  /** The branch of the chain a classified line takes: an exact key overwrites
      its field, a pattern key adds into its total (`vcpu_time` first going
      from `None` to 0), and `int()` raising ends the parse. */
  method UpdateStats(stats: Stats, it: Item) returns (r: Option<Stats>)
    ensures r == Apply(stats, it)
  {
    if it.action == Ignore {
      return Some(stats);
    }
    if it.value.None? {
      return None;
    }
    var n := it.value.value;
    var updated := stats;
    match it.action {
      case Ignore =>
      case Assign(f) =>
        updated := updated[f := n];
      case Accumulate(f) =>
        if f !in updated {
          updated := updated[f := 0];
        }
        updated := updated[f := updated[f] + n];
        assert updated == stats[f := (if f in stats then stats[f] else 0) + n];
    }
    return Some(updated);
  }

  /** `get_vm_detailed_stats(vm_name)`, given what `virsh domstats` returned;
      the `ValueError` of `int()` ends the parse with `None`. */
  method GetVmDetailedStats(success: bool, stdout: string) returns (result: Option<Stats>)
    ensures result == DetailedStats(success, stdout)
  {
    if !success {
      return None;
    }
    result := FoldLines(SplitOn(stdout, '\n'));
  }

  /** The loop over the output lines, starting from the initial record. */
  method FoldLines(lines: seq<string>) returns (result: Option<Stats>)
    ensures result == Fold(Items(lines))
  {
    var stats := Initial;
    ghost var items := Items(lines);
    var i := 0;
    assert items[..0] == [];
    while i < |lines|
      invariant 0 <= i <= |lines|
      invariant Fold(items[..i]) == Some(stats)
    {
      ghost var before := stats;
      var it := ReadLine(lines[i]);
      ItemsAt(lines, i);
      FoldNext(items, i, before, it);
      var next := UpdateStats(stats, it);
      if next.None? {
        FoldStaysFailed(items, i + 1);
        return None;
      }
      stats := next.value;
      i := i + 1;
    }
    assert items[..i] == items;
    return Some(stats);
  }

  /** Once a line has raised, later lines cannot revive the parse. */
  lemma {:induction false} FoldStaysFailed(items: seq<Item>, n: nat)
    requires n <= |items|
    requires Fold(items[..n]).None?
    ensures Fold(items).None?
    decreases |items| - n
  {
    if n < |items| {
      assert items[..n + 1][..n] == items[..n];
      FoldStaysFailed(items, n + 1);
    } else {
      assert items[..n] == items;
    }
  }

  // ---------------------------------------------------------------------------
  // What the record holds
  // ---------------------------------------------------------------------------

  /** The sum of the values of the lines that add into `f`. */
  function Sum(items: seq<Item>, f: Aggregate): int {
    if |items| == 0 then 0
    else
      var last := items[|items| - 1];
      Sum(items[..|items| - 1], f)
        + (if last.action == Accumulate(f) && last.value.Some? then last.value.value else 0)
  }

  /** The value of the last line that sets `f`, if any. */
  function LastAssigned(items: seq<Item>, f: Exact): Option<int> {
    if |items| == 0 then None
    else
      var last := items[|items| - 1];
      if last.action == Assign(f) && last.value.Some? then last.value
      else LastAssigned(items[..|items| - 1], f)
  }

  /** Some line raises. */
  predicate AnyBad(items: seq<Item>) {
    exists i | 0 <= i < |items| :: Bad(items[i])
  }

  /** Some line adds into `f`. */
  predicate Touches(items: seq<Item>, f: Aggregate) {
    exists i | 0 <= i < |items| :: items[i].action == Accumulate(f)
  }

  /** The parse raises exactly when some recognised key has a value `int()`
      rejects: one bad value loses the whole record. */
  lemma {:induction false} FailsIffBad(items: seq<Item>)
    ensures Fold(items).None? <==> AnyBad(items)
  {
    if |items| > 0 {
      var init := items[..|items| - 1];
      var last := items[|items| - 1];
      FailsIffBad(init);
      if AnyBad(init) {
        var i :| 0 <= i < |init| && Bad(init[i]);
        assert items[i] == init[i];
      } else {
        assert Fold(items).None? <==> Bad(last);
        if Bad(last) {
          assert Bad(items[|items| - 1]);
        } else {
          forall i | 0 <= i < |items| ensures !Bad(items[i]) {
            if i < |init| {
              assert init[i] == items[i];
            }
          }
        }
      }
    }
  }

  /** A line with a recognised key whose value `int()` rejects. */
  predicate BadLine(raw: string) {
    Bad(ItemOf(raw))
  }

  /** On the command's output: `None` exactly when some line has a
      recognised key whose value `int()` rejects. */
  lemma DetailedStatsFailsIffBadLine(stdout: string)
    ensures DetailedStats(true, stdout).None? <==> AnyLine(SplitOn(stdout, '\n'), BadLine)
  {
    FoldFailsIffBadLine(SplitOn(stdout, '\n'));
  }

  lemma FoldFailsIffBadLine(lines: seq<string>)
    ensures Fold(Items(lines)).None? <==> AnyLine(lines, BadLine)
  {
    var items := Items(lines);
    FailsIffBad(items);
    if AnyBad(items) {
      var i :| 0 <= i < |items| && Bad(items[i]);
      ItemsAt(lines, i);
      assert BadLine(lines[i]);
    }
    if AnyLine(lines, BadLine) {
      var i :| 0 <= i < |lines| && BadLine(lines[i]);
      ItemsAt(lines, i);
      assert Bad(items[i]);
    }
  }

  /** Every device total, and `vcpu_time`, is the sum of the values of the
      keys matching its pattern; `vcpu_time` stays `None` unless such a key
      appears, the other totals start at 0 and are always present. */
  lemma {:induction false} AggregatesAreSums(items: seq<Item>, f: Aggregate)
    requires Fold(items).Some?
    ensures f in Fold(items).value <==> f in Initial || Touches(items, f)
    ensures f in Fold(items).value ==> Fold(items).value[f] == Sum(items, f)
  {
    if |items| > 0 {
      var init := items[..|items| - 1];
      var last := items[|items| - 1];
      assert Fold(init).Some?;
      AggregatesAreSums(init, f);
      var st := Fold(init).value;
      assert Fold(items) == Apply(st, last);
      assert Sum(items, f) == Sum(init, f)
        + (if last.action == Accumulate(f) && last.value.Some? then last.value.value else 0);
      TouchesSnoc(items, f);
      match last.action
      case Ignore =>
      case Assign(g) =>
      case Accumulate(g) =>
        if g == f && f !in st {
          SumUntouched(init, f);
        }
    }
  }

  lemma {:induction false} SumUntouched(items: seq<Item>, f: Aggregate)
    requires !Touches(items, f)
    ensures Sum(items, f) == 0
  {
    if |items| > 0 {
      TouchesSnoc(items, f);
      SumUntouched(items[..|items| - 1], f);
    }
  }

  lemma TouchesSnoc(items: seq<Item>, f: Aggregate)
    requires |items| > 0
    ensures Touches(items, f) <==> Touches(items[..|items| - 1], f) || items[|items| - 1].action == Accumulate(f)
  {
    var init := items[..|items| - 1];
    if Touches(init, f) {
      var i :| 0 <= i < |init| && init[i].action == Accumulate(f);
      assert items[i] == init[i];
    }
    if Touches(items, f) {
      var i :| 0 <= i < |items| && items[i].action == Accumulate(f);
      if i < |init| {
        assert init[i] == items[i];
      }
    }
  }

  /** Every exact-key field holds the value of the last line that sets it, and
      keeps its initial value (`None`, or 0 for `block_count`) until one does. */
  lemma {:induction false} ExactFieldsLastWins(items: seq<Item>, f: Exact)
    requires Fold(items).Some?
    ensures LastAssigned(items, f).Some? ==>
      f in Fold(items).value && Fold(items).value[f] == LastAssigned(items, f).value
    ensures LastAssigned(items, f).None? ==>
      (f in Fold(items).value <==> f in Initial)
      && (f in Initial ==> Fold(items).value[f] == Initial[f])
  {
    if |items| > 0 {
      var init := items[..|items| - 1];
      var last := items[|items| - 1];
      assert Fold(init).Some?;
      ExactFieldsLastWins(init, f);
      var st := Fold(init).value;
      assert Fold(items) == Apply(st, last);
      ApplyExact(st, last, f);
      assert LastAssigned(items, f) ==
        if last.action == Assign(f) && last.value.Some? then last.value else LastAssigned(init, f);
    }
  }

  /** One line sets an exact field when it assigns that field, and keeps it
      otherwise. */
  lemma ApplyExact(st: Stats, it: Item, f: Exact)
    requires Apply(st, it).Some?
    ensures it.action == Assign(f) ==> it.value.Some? && Apply(st, it).value == st[f := it.value.value]
    ensures it.action != Assign(f) ==>
      (f in Apply(st, it).value <==> f in st) && (f in st ==> Apply(st, it).value[f] == st[f])
  {
  }

  /** `vcpu_time` is `None` unless some `vcpu.*.time` key appears, and then it
      is the sum of their values. */
  lemma VcpuTimeIsSumOfVcpus(items: seq<Item>)
    requires Fold(items).Some?
    ensures VcpuTime in Fold(items).value <==> Touches(items, VcpuTime)
    ensures VcpuTime in Fold(items).value ==> Fold(items).value[VcpuTime] == Sum(items, VcpuTime)
  {
    AggregatesAreSums(items, VcpuTime);
  }

  /** Lines without `=` and lines with an unrecognised key can be removed
      from anywhere without changing the result. */
  lemma {:induction false} IgnoredLineChangesNothing(before: seq<Item>, it: Item, after: seq<Item>)
    requires it.action == Ignore
    ensures Fold(before + [it] + after) == Fold(before + after)
    decreases |after|
  {
    if |after| == 0 {
      assert (before + [it] + after)[..|before|] == before;
      assert before + after == before;
    } else {
      var a := after[..|after| - 1];
      IgnoredLineChangesNothing(before, it, a);
      assert (before + [it] + after)[..|before + [it] + after| - 1] == before + [it] + a;
      assert (before + after)[..|before + after| - 1] == before + a;
    }
  }

  /** A line without `=` is ignored. */
  lemma NoEqualsIgnored(raw: string)
    requires '=' !in Strip(raw)
    ensures ItemOf(raw).action == Ignore
  {
  }

  // ---------------------------------------------------------------------------
  // The order of the chain
  // ---------------------------------------------------------------------------

  /** A per-vCPU time key adds into `vcpu_time`. */
  lemma VcpuTimeKeys(n: string)
    requires '.' !in n
    ensures Classify("vcpu." + n + ".time") == Accumulate(VcpuTime)
  {
    var key := "vcpu." + n + ".time";
    assert key[..5] == "vcpu.";
    assert key[|key| - 5..] == ".time";
    assert key != "vcpu.current" && key != "vcpu.maximum" by {
      if |n| == 0 {
        assert |key| == 10;
      } else {
        assert key[5..5 + |n|] == n;
        assert key[5] in n;
      }
    }
  }

  /** `block.count` is the count of disks, not a per-device total, although it
      starts with `block.`. */
  lemma BlockCountIsExact()
    ensures Classify("block.count") == Assign(BlockCount)
  {
    var key := "block.count";
    assert key[0] == 'b' && key[1] == 'l' && key[5] == '.';
    BlockKeysSkipEarlierTests(key);
  }

  /** A key starting with `bl` fails every test of the chain before `block.count`. */
  lemma BlockKeysSkipEarlierTests(key: string)
    requires |key| >= 2 && key[0] == 'b' && key[1] == 'l'
    ensures key != "cpu.time" && key != "cpu.user" && key != "cpu.system"
    ensures key != "vcpu.current" && key != "vcpu.maximum" && !StartsWith(key, "vcpu.")
    ensures key != "balloon.current" && key != "balloon.maximum"
    ensures key != "memory.unused" && key != "memory.usable" && key != "memory.rss"
  {
    assert "balloon.current"[1] == 'a' && "balloon.maximum"[1] == 'a';
  }

  /** Any `block.` key other than `block.count` that contains one of the
      per-device patterns adds into the total of the first pattern it contains. */
  lemma BlockKeysAddUp(key: string, f: Aggregate)
    requires StartsWith(key, "block.") && key != "block.count"
    requires FirstPattern(key, BlockPatterns) == Some(f)
    ensures Classify(key) == Accumulate(f)
  {
    BlockPrefix(key);
    BlockKeysSkipEarlierTests(key);
    assert Classify(key) == DeviceKey(key);
    assert DeviceKey(key) == Accumulate(f);
  }

  lemma BlockPrefix(key: string)
    requires StartsWith(key, "block.")
    ensures |key| >= 2 && key[0] == 'b' && key[1] == 'l'
  {
    var p := "block.";
    assert key[..|p|] == p;
    assert key[0] == key[..|p|][0];
    assert key[1] == key[..|p|][1];
  }

  /** The read counter of disk `n` matches the fourth pattern and none before it. */
  lemma ReadBytesPattern(key: string, n: string)
    requires IsDigits(n)
    requires key == "block." + n + ".rd.bytes"
    ensures FirstPattern(key, BlockPatterns) == Some(BlockReadBytes)
  {
    var i := 6 + |n|;
    assert key[i..] == ".rd.bytes";
    assert 'p' !in key && 'a' !in key;
    assert !Contains(key, ".capacity") by { MissingCharRulesOut(key, ".capacity", 'p', 3); }
    assert !Contains(key, ".allocation") by { MissingCharRulesOut(key, ".allocation", 'a', 1); }
    assert !Contains(key, ".physical") by { MissingCharRulesOut(key, ".physical", 'p', 1); }
    assert OccursAt(key, ".rd.bytes", i);
    var t := BlockPatterns;
    assert t[3].0 == ".rd.bytes" && t[2].0 == ".physical" && t[1].0 == ".allocation" && t[0].0 == ".capacity";
    assert t[2..][1..] == t[3..] && t[1..][1..] == t[2..] && t[1..] == t[0..][1..] && t[0..] == t;
    assert FirstPattern(key, t[3..]) == Some(BlockReadBytes);
    assert FirstPattern(key, t[2..]) == Some(BlockReadBytes);
    assert FirstPattern(key, t[1..]) == Some(BlockReadBytes);
  }

  /** The read counter of a disk adds into `block_read_bytes`. */
  lemma BlockReadBytesKeys(n: string)
    requires IsDigits(n)
    ensures Classify("block." + n + ".rd.bytes") == Accumulate(BlockReadBytes)
  {
    var key := "block." + n + ".rd.bytes";
    ReadBytesPattern(key, n);
    assert StartsWith(key, "block.");
    assert key != "block.count" by {
      assert key[|key| - 1] == 's';
    }
    BlockKeysAddUp(key, BlockReadBytes);
  }
}
