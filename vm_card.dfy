/**
 * The per-machine card of the panel (`VMCard` in ui.py): the counters kept
 * from the previous sample, the rates derived from them on each refresh, the
 * reset when the machine stops, and the small helpers that pick the status,
 * uptime and size texts. Drawing and label markup are not modelled; the
 * numbers handed to the widgets are.
 */
module VmCard {
  import opened Base
  import opened DomStats
  import opened VmList

  /** `stats.get(key)` on the statistics record: `None` for a field never set. */
  function Get(s: Stats, f: Field): Option<int> {
    if f in s then Some(s[f]) else None
  }

  const NanosPerSecond: real := 1000000000.0
  const NanosPerMilli: real := 1000000.0
  const BytesPerMib: real := 1048576.0

  /** The counters the card keeps from the previous refresh. */
  datatype Tracking = Tracking(
    lastCpuTime: Option<int>, lastUpdateTime: Option<real>,
    lastNetRxBytes: Option<int>, lastNetTxBytes: Option<int>,
    lastBlockReadReqs: Option<int>, lastBlockWriteReqs: Option<int>)

  /** Nothing remembered: the state after construction and after a reset. */
  const Untracked: Tracking := Tracking(None, None, None, None, None, None)

  /** The exceptions a refresh can raise: comparing a missing vCPU count with
      0 (a `TypeError`), and a guest that reports 0 KiB of memory (a
      `ZeroDivisionError`). */
  datatype Fault = VcpuCountMissing | ZeroActualMemory

  /** The values one refresh hands to the widgets. */
  datatype Derived = Derived(
    cpuPercent: real, memPercent: real, memTitle: string,
    netRxMbps: real, netTxMbps: real, netRxPercent: real, netTxPercent: real,
    readIops: real, writeIops: real, readLatencyMs: real, writeLatencyMs: real,
    diskUsagePercent: real)

  /** How a refresh ends: values shown, or an exception raised. */
  datatype Update = Shown(values: Derived) | Raised(fault: Fault)

  function Max0(x: real): (r: real)
    ensures r >= 0.0 && r >= x
    ensures x >= 0.0 ==> r == x
  {
    if x < 0.0 then 0.0 else x
  }

  /** CPU nanoseconds used over `elapsed` seconds on `vcpus` vCPUs, in
      percent of their capacity, clamped to 0..100. */
  function CpuShare(cpuDeltaNs: int, elapsed: real, vcpus: int): (r: real)
    requires elapsed > 0.0 && vcpus > 0
    ensures 0.0 <= r <= 100.0
  {
    Clamp(cpuDeltaNs as real / NanosPerSecond / (elapsed * vcpus as real) * 100.0)
  }

  /** A counter's growth per second over `elapsed` seconds, in units of
      `unit`, never negative. */
  function Rate(delta: int, elapsed: real, unit: real): (r: real)
    requires elapsed > 0.0 && unit > 0.0
    ensures r >= 0.0
  {
    Max0(delta as real / elapsed / unit)
  }

  /** The share of the guest's memory in use. */
  function UsedPercent(actual: int, unused: int): real
    requires actual != 0
  {
    (actual - unused) as real / actual as real * 100.0
  }

  /** The CPU share over the time since the previous refresh, in percent of
      all vCPUs; `None` when the comparison of a missing vCPU count raises. */
  function CpuPercent(cpuTime: Option<int>, vcpuCount: Option<int>, t: Tracking, now: real): Option<real> {
    if Truthy(cpuTime) && t.lastCpuTime.Some? && t.lastUpdateTime.Some? then
      var elapsed := now - t.lastUpdateTime.value;
      if elapsed > 0.0 then
        if vcpuCount.None? then None
        else if vcpuCount.value > 0 then
          Some(CpuShare(cpuTime.value - t.lastCpuTime.value, elapsed, vcpuCount.value))
        else Some(0.0)
      else Some(0.0)
    else Some(0.0)
  }

  /** Memory in use, in percent: from the guest's balloon statistics when
      they report both `actual` and `unused`, else a fixed 50 when the
      allocation is known, else 0; `None` when `actual` is 0. */
  function MemPercent(mem: Option<map<string, int>>, actual: Option<int>, available: Option<int>): Option<real> {
    if mem.Some? && "actual" in mem.value && "unused" in mem.value then
      var a := mem.value["actual"];
      if a == 0 then None
      else Some(UsedPercent(a, mem.value["unused"]))
    else if Truthy(actual) && Truthy(available) then Some(50.0)
    else Some(0.0)
  }

  /** The guest reports balloon statistics with an `actual` of 0: the memory
      label's own ratio divides by zero before the detailed refresh starts. */
  predicate ZeroBalloon(mem: Option<map<string, int>>) {
    mem.Some? && "actual" in mem.value && "unused" in mem.value && mem.value["actual"] == 0
  }

  /** The memory gauge's title: "RAM" when the guest reports its resident set. */
  function MemTitle(mem: Option<map<string, int>>): string {
    if mem.Some? && "rss" in mem.value then "RAM" else "RAM Asignada"
  }

  /** Two growth rates per second (divided by `unit`) since `since`, never
      negative, and 0 unless both previous counters and a positive elapsed
      time are known. */
  function Rates(prevA: Option<int>, prevB: Option<int>, a: int, b: int, since: Option<real>, now: real, unit: real): (r: (real, real))
    requires unit > 0.0
    ensures r.0 >= 0.0 && r.1 >= 0.0
  {
    if prevA.Some? && prevB.Some? && since.Some? && now - since.value > 0.0 then
      var elapsed := now - since.value;
      (Rate(a - prevA.value, elapsed, unit), Rate(b - prevB.value, elapsed, unit))
    else (0.0, 0.0)
  }

  /** Lifetime average latency in milliseconds: total time over requests. */
  function Latency(totalNanos: int, requests: int): real {
    if requests > 0 then totalNanos as real / requests as real / NanosPerMilli else 0.0
  }

  /** The disk bar's percentage: allocation over capacity. */
  function DiskUsage(capacity: int, allocation: int): real {
    if capacity > 0 then allocation as real / capacity as real * 100.0 else 0.0
  }

  /** One refresh of the card from a statistics record, the guest memory
      report and the current time: the update and the counters kept for the
      next refresh. The network and disk rates read the time already
      overwritten by the CPU step. */
  function Step(t: Tracking, s: Stats, mem: Option<map<string, int>>, now: real): (Update, Tracking) {
    var cpuTime := Get(s, CpuTime);
    var cpu := CpuPercent(cpuTime, Get(s, VcpuCount), t, now);
    if cpu.None? then (Raised(VcpuCountMissing), t)
    else
      var t1 := t.(lastCpuTime := cpuTime, lastUpdateTime := Some(now));
      var memPercent := MemPercent(mem, Get(s, MemoryActual), Get(s, MemoryAvailable));
      if memPercent.None? then (Raised(ZeroActualMemory), t1)
      else
        var rx := Get(s, NetRxBytes).GetOr(0);
        var tx := Get(s, NetTxBytes).GetOr(0);
        var net := Rates(t1.lastNetRxBytes, t1.lastNetTxBytes, rx, tx, t1.lastUpdateTime, now, BytesPerMib);
        var rd := Get(s, BlockReadReqs).GetOr(0);
        var wr := Get(s, BlockWriteReqs).GetOr(0);
        var iops := Rates(t1.lastBlockReadReqs, t1.lastBlockWriteReqs, rd, wr, t1.lastUpdateTime, now, 1.0);
        var values := Derived(
          cpu.value, memPercent.value, MemTitle(mem),
          net.0, net.1, Min100(net.0), Min100(net.1),
          iops.0, iops.1,
          Latency(Get(s, BlockReadTotalTimes).GetOr(0), rd), Latency(Get(s, BlockWriteTotalTimes).GetOr(0), wr),
          DiskUsage(Get(s, BlockCapacity).GetOr(0), Get(s, BlockAllocation).GetOr(0)));
        (Shown(values), t1.(lastNetRxBytes := Some(rx), lastNetTxBytes := Some(tx),
                           lastBlockReadReqs := Some(rd), lastBlockWriteReqs := Some(wr)))
  }

  /** The network gauges' share of 100 MB/s. */
  function Min100(mbps: real): real {
    if mbps < 100.0 then mbps else 100.0
  }

  /** What the card shows for a machine's status. */
  datatype StatusText = RunningText | OffText | StateText(state: string)

  /** The status label and which buttons are visible. */
  datatype StatusView = StatusView(text: StatusText, startVisible: bool, shutdownVisible: bool,
                                   rebootVisible: bool, saveVisible: bool)

  /** The states shown as powered off. */
  predicate IsOffState(state: string) {
    state in {"shut off", "apagado", "apagada"}
  }

  /** The status part of `update_vm_status` for a listed machine. */
  function StatusOf(e: VmEntry): StatusView {
    if e.running then StatusView(RunningText, false, true, true, true)
    else if IsOffState(e.state) then StatusView(OffText, true, false, false, false)
    else StatusView(StateText(e.state), true, false, false, false)
  }

  /** What the uptime label shows. */
  datatype UptimeText = UptimeUnknown | HoursMinutes(hours: int, minutes: int) | MinutesOnly(minutes: int)

  /** The uptime split into whole hours and the remaining whole minutes;
      unknown when the uptime is missing or 0. */
  function UptimeOf(seconds: Option<int>): UptimeText {
    if !Truthy(seconds) then UptimeUnknown
    else
      var hours := seconds.value / 3600;
      var minutes := (seconds.value % 3600) / 60;
      if hours > 0 then HoursMinutes(hours, minutes) else MinutesOnly(minutes)
  }

  /** A byte count as the card's nested `format_bytes` writes it. */
  datatype SizeText = Gib(gib: real) | Mib(mib: real) | Kib(kib: real) | ByteCount(count: int)

  function FormatBytes(b: int): SizeText {
    if b >= 1073741824 then Gib(b as real / 1073741824.0)
    else if b >= 1048576 then Mib(b as real / 1048576.0)
    else if b >= 1024 then Kib(b as real / 1024.0)
    else ByteCount(b)
  }

  // ---------------------------------------------------------------------
  // What one refresh promises.
  // ---------------------------------------------------------------------

  /** The CPU share is 0 unless the current `cpu_time` is truthy, a previous
      sample and time exist, time has passed and the vCPU count is positive;
      then it is the used CPU seconds over the available vCPU seconds, in
      percent, clamped to 0..100. It raises exactly when the count is missing
      where the comparison is reached. */
  lemma CpuPercentMeaning(cpuTime: Option<int>, vcpuCount: Option<int>, t: Tracking, now: real)
    ensures var guard := Truthy(cpuTime) && t.lastCpuTime.Some? && t.lastUpdateTime.Some?
                         && now - t.lastUpdateTime.value > 0.0;
      && (CpuPercent(cpuTime, vcpuCount, t, now).None? <==> guard && vcpuCount.None?)
      && (CpuPercent(cpuTime, vcpuCount, t, now).Some? ==>
            var p := CpuPercent(cpuTime, vcpuCount, t, now).value;
            && 0.0 <= p <= 100.0
            && (p != 0.0 ==> guard && vcpuCount.value > 0)
            && (guard && vcpuCount.Some? && vcpuCount.value > 0 ==>
                  var share := (cpuTime.value - t.lastCpuTime.value) as real / NanosPerSecond
                               / ((now - t.lastUpdateTime.value) * vcpuCount.value as real) * 100.0;
                  p == Clamp(share)))
  {
  }

  /** After a refresh that shows values, the card remembers exactly the
      current counters and the current time; a refresh that raises on the
      vCPU count changes nothing, and one that raises on memory has already
      stored the CPU time and the clock. */
  lemma StepKeepsCurrentCounters(t: Tracking, s: Stats, mem: Option<map<string, int>>, now: real)
    ensures var (u, t') := Step(t, s, mem, now);
      && (u.Shown? ==> t' == Tracking(Get(s, CpuTime), Some(now),
                                      Some(Get(s, NetRxBytes).GetOr(0)), Some(Get(s, NetTxBytes).GetOr(0)),
                                      Some(Get(s, BlockReadReqs).GetOr(0)), Some(Get(s, BlockWriteReqs).GetOr(0))))
      && (u == Raised(VcpuCountMissing) ==> t' == t)
      && (u == Raised(ZeroActualMemory) ==> t' == t.(lastCpuTime := Get(s, CpuTime), lastUpdateTime := Some(now)))
  {
  }

  /** As written, network throughput and IOPS are always 0: their elapsed
      time is measured from the clock value the CPU step has just stored. */
  lemma RatesAlwaysZero(t: Tracking, s: Stats, mem: Option<map<string, int>>, now: real)
    ensures var u := Step(t, s, mem, now).0;
      u.Shown? ==> u.values.netRxMbps == 0.0 && u.values.netTxMbps == 0.0
                   && u.values.readIops == 0.0 && u.values.writeIops == 0.0
  {
  }

  /** The evidently intended rates: measured from the time of the previous
      refresh. */
  function IntendedIoRates(t: Tracking, s: Stats, now: real): (r: (real, real, real, real))
    ensures r.0 >= 0.0 && r.1 >= 0.0 && r.2 >= 0.0 && r.3 >= 0.0
  {
    var net := Rates(t.lastNetRxBytes, t.lastNetTxBytes, Get(s, NetRxBytes).GetOr(0), Get(s, NetTxBytes).GetOr(0),
                     t.lastUpdateTime, now, BytesPerMib);
    var iops := Rates(t.lastBlockReadReqs, t.lastBlockWriteReqs, Get(s, BlockReadReqs).GetOr(0), Get(s, BlockWriteReqs).GetOr(0),
                      t.lastUpdateTime, now, 1.0);
    (net.0, net.1, iops.0, iops.1)
  }

  /** A growing counter's rate times the elapsed time gives back its growth. */
  lemma RateMeasuresGrowth(delta: int, elapsed: real, unit: real)
    requires elapsed > 0.0 && unit > 0.0 && delta >= 0
    ensures Rate(delta, elapsed, unit) * elapsed * unit == delta as real
  {
    var q := delta as real / elapsed;
    assert q * elapsed == delta as real;
    assert (q / unit) * unit == q;
    assert q / unit >= 0.0;
  }

  /** With the previous refresh's time, bytes received since then are the
      intended rate times the elapsed time, and the IOPS likewise. */
  lemma IntendedRatesMeasureGrowth(t: Tracking, s: Stats, now: real)
    requires t.lastNetRxBytes.Some? && t.lastNetTxBytes.Some? && t.lastUpdateTime.Some?
    requires t.lastBlockReadReqs.Some? && t.lastBlockWriteReqs.Some?
    requires now > t.lastUpdateTime.value
    ensures var r := IntendedIoRates(t, s, now);
      var elapsed := now - t.lastUpdateTime.value;
      var rx := Get(s, NetRxBytes).GetOr(0);
      var rd := Get(s, BlockReadReqs).GetOr(0);
      && (rx >= t.lastNetRxBytes.value ==> r.0 * elapsed * BytesPerMib == (rx - t.lastNetRxBytes.value) as real)
      && (rd >= t.lastBlockReadReqs.value ==> r.2 * elapsed * 1.0 == (rd - t.lastBlockReadReqs.value) as real)
  {
    var elapsed := now - t.lastUpdateTime.value;
    var rx := Get(s, NetRxBytes).GetOr(0);
    var rd := Get(s, BlockReadReqs).GetOr(0);
    var r := IntendedIoRates(t, s, now);
    assert r.0 == Rate(rx - t.lastNetRxBytes.value, elapsed, BytesPerMib);
    assert r.2 == Rate(rd - t.lastBlockReadReqs.value, elapsed, 1.0);
    if rx >= t.lastNetRxBytes.value {
      RateMeasuresGrowth(rx - t.lastNetRxBytes.value, elapsed, BytesPerMib);
    }
    if rd >= t.lastBlockReadReqs.value {
      RateMeasuresGrowth(rd - t.lastBlockReadReqs.value, elapsed, 1.0);
    }
  }

  /** As written, a truthy CPU time after an earlier sample, with time
      elapsed and no vCPU count in the record, raises and keeps the state. */
  lemma MissingVcpuCountRaises(t: Tracking, s: Stats, mem: Option<map<string, int>>, now: real)
    requires Truthy(Get(s, CpuTime)) && t.lastCpuTime.Some? && t.lastUpdateTime.Some?
    requires now > t.lastUpdateTime.value && VcpuCount !in s
    ensures Step(t, s, mem, now) == (Raised(VcpuCountMissing), t)
  {
  }

  /** The evidently intended CPU share: a missing vCPU count counts as 1,
      the default `stats.get('vcpu_count', 1)` asks for. */
  function IntendedCpuPercent(cpuTime: Option<int>, vcpuCount: Option<int>, t: Tracking, now: real): (p: real)
    ensures 0.0 <= p <= 100.0
  {
    var count := vcpuCount.GetOr(1);
    CpuPercentMeaning(cpuTime, Some(count), t, now);
    CpuPercent(cpuTime, Some(count), t, now).value
  }

  /** The intended share never raises and agrees with the written one
      wherever that one does not raise. */
  lemma IntendedCpuPercentAgrees(cpuTime: Option<int>, vcpuCount: Option<int>, t: Tracking, now: real)
    ensures CpuPercent(cpuTime, vcpuCount, t, now).Some? ==>
      IntendedCpuPercent(cpuTime, vcpuCount, t, now) == CpuPercent(cpuTime, vcpuCount, t, now).value
  {
  }

  /** The memory share comes from the guest's `actual` and `unused` when both
      are reported (raising when `actual` is 0), else is 50 when the record's
      `memory_actual` and `memory_available` are both truthy, else 0; the
      resident set only changes the title. */
  lemma MemPercentChoice(mem: Option<map<string, int>>, actual: Option<int>, available: Option<int>)
    ensures var balloon := mem.Some? && "actual" in mem.value && "unused" in mem.value;
      var p := MemPercent(mem, actual, available);
      && (p.None? <==> balloon && mem.value["actual"] == 0)
      && (balloon && p.Some? ==>
            p.value * mem.value["actual"] as real == (mem.value["actual"] - mem.value["unused"]) as real * 100.0)
      && (!balloon ==> p == Some(if Truthy(actual) && Truthy(available) then 50.0 else 0.0))
    ensures MemTitle(mem) == "RAM" <==> mem.Some? && "rss" in mem.value
  {
    if mem.Some? && "actual" in mem.value && "unused" in mem.value && mem.value["actual"] != 0 {
      var a := mem.value["actual"] as real;
      var used := (mem.value["actual"] - mem.value["unused"]) as real;
      assert used / a * a == used;
      assert used / a * 100.0 * a == used / a * a * 100.0;
    }
  }

  /** The average latency is the request time per request in milliseconds,
      and 0 without requests. */
  lemma LatencyIsAverage(totalNanos: int, requests: int)
    ensures requests <= 0 ==> Latency(totalNanos, requests) == 0.0
    ensures requests > 0 ==> Latency(totalNanos, requests) * requests as real * NanosPerMilli == totalNanos as real
  {
    if requests > 0 {
      var q := totalNanos as real / requests as real;
      assert q * requests as real == totalNanos as real;
      assert q / NanosPerMilli * NanosPerMilli == q;
    }
  }

  /** The first refresh after a reset shows a CPU share of 0 and no rates,
      and cannot raise on the vCPU count. */
  lemma RefreshAfterReset(s: Stats, mem: Option<map<string, int>>, now: real)
    ensures Step(Untracked, s, mem, now).0 != Raised(VcpuCountMissing)
    ensures var u := Step(Untracked, s, mem, now).0;
      u.Shown? ==> u.values.cpuPercent == 0.0 && u.values.netRxMbps == 0.0 && u.values.readIops == 0.0
  {
  }

  /** The status shows "running", "off" for the three powered-off texts, or
      the state itself; the start button is visible exactly when the machine
      is not running, and the other three exactly when it is. */
  lemma StatusShown(e: VmEntry)
    ensures var v := StatusOf(e);
      && (v.text == RunningText <==> e.running)
      && (v.text == OffText <==> !e.running && IsOffState(e.state))
      && (v.text.StateText? ==> v.text.state == e.state && !e.running && !IsOffState(e.state))
      && (v.startVisible <==> !e.running)
      && (v.shutdownVisible == v.rebootVisible == v.saveVisible == e.running)
  {
  }

  /** The uptime is unknown exactly when it is missing or 0; otherwise a
      non-negative uptime is split into whole hours (shown when positive) and
      the whole minutes of the remaining part hour. */
  lemma UptimeSplit(seconds: Option<int>)
    ensures UptimeOf(seconds) == UptimeUnknown <==> !Truthy(seconds)
    ensures Truthy(seconds) && seconds.value >= 0 ==>
      match UptimeOf(seconds)
      case HoursMinutes(h, m) =>
        h > 0 && 0 <= m < 60 && h * 3600 + m * 60 <= seconds.value < h * 3600 + m * 60 + 60
      case MinutesOnly(m) =>
        seconds.value < 3600 && 0 <= m < 60 && m * 60 <= seconds.value < m * 60 + 60
      case UptimeUnknown => false
  {
  }

  /** The unit is the largest of GB, MB, KB that fits, and the shown amount
      times the unit is the byte count. */
  lemma FormatBytesScale(b: int)
    ensures match FormatBytes(b)
      case Gib(g) => b >= 1073741824 && g >= 1.0 && g * 1073741824.0 == b as real
      case Mib(m) => 1048576 <= b < 1073741824 && 1.0 <= m < 1024.0 && m * 1048576.0 == b as real
      case Kib(k) => 1024 <= b < 1048576 && 1.0 <= k < 1024.0 && k * 1024.0 == b as real
      case ByteCount(c) => b < 1024 && c == b
  {
  }

  /** The card's sampling state. The four history deques are emptied by a
      reset and never filled anywhere in the card. */
  class VMCard {
    const vmName: string
    var lastCpuTime: Option<int>
    var lastUpdateTime: Option<real>
    var lastNetRxBytes: Option<int>
    var lastNetTxBytes: Option<int>
    var lastBlockReadReqs: Option<int>
    var lastBlockWriteReqs: Option<int>
    var cpuHistory: seq<real>
    var memoryHistory: seq<real>
    var netRxHistory: seq<real>
    var netTxHistory: seq<real>

    /** The tracking fields as one value. */
    function Tracked(): Tracking
      reads this
    {
      Tracking(lastCpuTime, lastUpdateTime, lastNetRxBytes, lastNetTxBytes, lastBlockReadReqs, lastBlockWriteReqs)
    }

    predicate HistoriesEmpty()
      reads this
    {
      cpuHistory == [] && memoryHistory == [] && netRxHistory == [] && netTxHistory == []
    }

    constructor(name: string)
      ensures vmName == name
      ensures Tracked() == Untracked && HistoriesEmpty()
    {
      vmName := name;
      lastCpuTime := None;
      lastUpdateTime := None;
      lastNetRxBytes := None;
      lastNetTxBytes := None;
      lastBlockReadReqs := None;
      lastBlockWriteReqs := None;
      cpuHistory := [];
      memoryHistory := [];
      netRxHistory := [];
      netTxHistory := [];
    }

    /** `_update_detailed_stats(stats)`, with the guest memory report and the
        clock passed in. */
    method UpdateDetailedStats(stats: Stats, mem: Option<map<string, int>>, now: real) returns (u: Update)
      modifies this
      ensures (u, Tracked()) == Step(old(Tracked()), stats, mem, now)
      ensures cpuHistory == old(cpuHistory) && memoryHistory == old(memoryHistory)
      ensures netRxHistory == old(netRxHistory) && netTxHistory == old(netTxHistory)
    {
      ghost var t0 := Tracked();
      var vcpuCount := Get(stats, VcpuCount);
      var cpuTime := Get(stats, CpuTime);
      var cpuPercent := 0.0;
      if Truthy(cpuTime) && lastCpuTime.Some? && lastUpdateTime.Some? {
        var cpuDelta := cpuTime.value - lastCpuTime.value;
        var realDelta := now - lastUpdateTime.value;
        if realDelta > 0.0 {
          if vcpuCount.None? {
            return Raised(VcpuCountMissing);
          }
          if vcpuCount.value > 0 {
            cpuPercent := CpuShare(cpuDelta, realDelta, vcpuCount.value);
          }
        }
      }
      assert CpuPercent(cpuTime, vcpuCount, t0, now) == Some(cpuPercent);
      lastCpuTime := cpuTime;
      lastUpdateTime := Some(now);

      var memActual := Get(stats, MemoryActual);
      var memAvailable := Get(stats, MemoryAvailable);
      var memPercent := 0.0;
      if mem.Some? && "actual" in mem.value && "unused" in mem.value {
        var actual := mem.value["actual"];
        if actual == 0 {
          return Raised(ZeroActualMemory);
        }
        memPercent := UsedPercent(actual, mem.value["unused"]);
      } else if Truthy(memActual) && Truthy(memAvailable) {
        memPercent := 50.0;
      }
      assert MemPercent(mem, memActual, memAvailable) == Some(memPercent);
      var title := if mem.Some? && "rss" in mem.value then "RAM" else "RAM Asignada";

      var netRx, netTx := SampleNetwork(stats, now);
      var readIops, writeIops := SampleDisk(stats, now);
      var readReqs := Get(stats, BlockReadReqs).GetOr(0);
      var writeReqs := Get(stats, BlockWriteReqs).GetOr(0);
      var readLatency := Latency(Get(stats, BlockReadTotalTimes).GetOr(0), readReqs);
      var writeLatency := Latency(Get(stats, BlockWriteTotalTimes).GetOr(0), writeReqs);
      var usage := DiskUsage(Get(stats, BlockCapacity).GetOr(0), Get(stats, BlockAllocation).GetOr(0));

      u := Shown(Derived(cpuPercent, memPercent, title, netRx, netTx, Min100(netRx), Min100(netTx),
                         readIops, writeIops, readLatency, writeLatency, usage));
    }

    /** The network section of `_update_detailed_stats`: MB/s received and
        sent since the time in `lastUpdateTime`, then the counters kept. */
    method SampleNetwork(stats: Stats, now: real) returns (rxMbps: real, txMbps: real)
      modifies this
      ensures var rx := Get(stats, NetRxBytes).GetOr(0);
        var tx := Get(stats, NetTxBytes).GetOr(0);
        && (rxMbps, txMbps) == Rates(old(lastNetRxBytes), old(lastNetTxBytes), rx, tx, old(lastUpdateTime), now, BytesPerMib)
        && Tracked() == old(Tracked()).(lastNetRxBytes := Some(rx), lastNetTxBytes := Some(tx))
      ensures cpuHistory == old(cpuHistory) && memoryHistory == old(memoryHistory)
      ensures netRxHistory == old(netRxHistory) && netTxHistory == old(netTxHistory)
    {
      var rx := Get(stats, NetRxBytes).GetOr(0);
      var tx := Get(stats, NetTxBytes).GetOr(0);
      rxMbps, txMbps := 0.0, 0.0;
      if lastNetRxBytes.Some? && lastNetTxBytes.Some? && lastUpdateTime.Some? {
        var delta := now - lastUpdateTime.value;
        if delta > 0.0 {
          rxMbps := Rate(rx - lastNetRxBytes.value, delta, BytesPerMib);
          txMbps := Rate(tx - lastNetTxBytes.value, delta, BytesPerMib);
        }
      }
      lastNetRxBytes := Some(rx);
      lastNetTxBytes := Some(tx);
    }

    /** The disk section of `_update_detailed_stats`: read and write requests
        per second since the time in `lastUpdateTime`, then the counters kept. */
    method SampleDisk(stats: Stats, now: real) returns (readIops: real, writeIops: real)
      modifies this
      ensures var rd := Get(stats, BlockReadReqs).GetOr(0);
        var wr := Get(stats, BlockWriteReqs).GetOr(0);
        && (readIops, writeIops) == Rates(old(lastBlockReadReqs), old(lastBlockWriteReqs), rd, wr, old(lastUpdateTime), now, 1.0)
        && Tracked() == old(Tracked()).(lastBlockReadReqs := Some(rd), lastBlockWriteReqs := Some(wr))
      ensures cpuHistory == old(cpuHistory) && memoryHistory == old(memoryHistory)
      ensures netRxHistory == old(netRxHistory) && netTxHistory == old(netTxHistory)
    {
      var readReqs := Get(stats, BlockReadReqs).GetOr(0);
      var writeReqs := Get(stats, BlockWriteReqs).GetOr(0);
      readIops, writeIops := 0.0, 0.0;
      if lastBlockReadReqs.Some? && lastBlockWriteReqs.Some? && lastUpdateTime.Some? {
        var delta := now - lastUpdateTime.value;
        if delta > 0.0 {
          readIops := Rate(readReqs - lastBlockReadReqs.value, delta, 1.0);
          writeIops := Rate(writeReqs - lastBlockWriteReqs.value, delta, 1.0);
        }
      }
      lastBlockReadReqs := Some(readReqs);
      lastBlockWriteReqs := Some(writeReqs);
    }

    /** `_clear_detailed_stats()`: forget every counter and empty the histories. */
    method ClearDetailedStats()
      modifies this
      ensures Tracked() == Untracked && HistoriesEmpty()
    {
      cpuHistory := [];
      memoryHistory := [];
      netRxHistory := [];
      netTxHistory := [];
      lastCpuTime := None;
      lastUpdateTime := None;
      lastNetRxBytes := None;
      lastNetTxBytes := None;
      lastBlockReadReqs := None;
      lastBlockWriteReqs := None;
    }

    /** The statistics part of `update_vm_status` for a machine the listing
        names (an unlisted one leaves the card as it is): a running machine with a
        statistics record is refreshed from it, unless the memory label's
        ratio has already divided by a zero `actual`; otherwise the card is
        reset. */
    method RefreshDetails(running: bool, stats: Option<Stats>, mem: Option<map<string, int>>, now: real)
      returns (u: Option<Update>)
      modifies this
      ensures running && stats.Some? && ZeroBalloon(mem) ==>
        && u == Some(Raised(ZeroActualMemory))
        && Tracked() == old(Tracked())
        && cpuHistory == old(cpuHistory) && memoryHistory == old(memoryHistory)
        && netRxHistory == old(netRxHistory) && netTxHistory == old(netTxHistory)
      ensures running && stats.Some? && !ZeroBalloon(mem) ==>
        && u.Some? && u.value != Raised(ZeroActualMemory)
        && (u.value, Tracked()) == Step(old(Tracked()), stats.value, mem, now)
      ensures !(running && stats.Some?) ==> u.None? && Tracked() == Untracked && HistoriesEmpty()
    {
      if running && stats.Some? {
        if ZeroBalloon(mem) {
          u := Some(Raised(ZeroActualMemory));
        } else {
          var r := UpdateDetailedStats(stats.value, mem, now);
          u := Some(r);
        }
      } else {
        ClearDetailedStats();
        u := None;
      }
    }
  }
}
