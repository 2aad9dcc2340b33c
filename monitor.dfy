/**
 * The stand-alone resource monitor (monitor_panel.py): the byte scaling of
 * `format_bytes` and the state its sampling loop keeps between samples: a
 * window of the last 60 CPU readings, the running CPU and memory maxima, the
 * two bars and the evaluation of the sample. Finding the process, reading
 * its counters, the clock and the screen output are not modelled: each
 * sample's readings are parameters.
 */
module Monitor {
  import opened Base

  // ---------------------------------------------------------------------
  // format_bytes
  // ---------------------------------------------------------------------

  datatype ByteUnit = B | KB | MB | GB | TB
  {
    /** How many times the value was divided by 1024 for this unit. */
    function Exponent(): nat {
      match this
      case B => 0
      case KB => 1
      case MB => 2
      case GB => 3
      case TB => 4
    }
  }

  /** The units tried in order before falling back to terabytes. */
  const SmallUnits: seq<ByteUnit> := [B, KB, MB, GB]

  /** 1024 to the power `k`. */
  function Power(k: nat): (r: real)
    ensures r >= 1.0
  {
    if k == 0 then 1.0 else 1024.0 * Power(k - 1)
  }

  /** The value and unit chosen once `k` units have been passed over and the
      value divided by 1024 for each. */
  function ScaledFrom(value: real, k: nat): (real, ByteUnit)
    requires k <= 4
    decreases 4 - k
  {
    if k == 4 then (value, TB)
    else if value < 1024.0 then (value, SmallUnits[k])
    else ScaledFrom(value / 1024.0, k + 1)
  }

  /** The value and unit `format_bytes` prints (before formatting the number). */
  function Scaled(bytes: real): (real, ByteUnit) {
    ScaledFrom(bytes, 0)
  }

  /** `format_bytes`: try each small unit in turn, dividing by 1024 after
      each one that is too small. */
  method FormatBytes(bytes: real) returns (value: real, unit: ByteUnit)
    ensures (value, unit) == Scaled(bytes)
  {
    value := bytes;
    var i := 0;
    while i < |SmallUnits|
      invariant 0 <= i <= 4
      invariant ScaledFrom(value, i) == Scaled(bytes)
    {
      if value < 1024.0 {
        return value, SmallUnits[i];
      }
      value := value / 1024.0;
      i := i + 1;
    }
    unit := TB;
  }

  /** Dividing `k` times by 1024 is dividing once by 1024 to the `k`. */
  lemma DivideAgain(bytes: real, k: nat)
    ensures bytes / Power(k) / 1024.0 == bytes / Power(k + 1)
  {
    var p := Power(k);
    assert Power(k + 1) == 1024.0 * p;
    assert bytes / p == (bytes / p / 1024.0) * 1024.0;
    assert (bytes / p / 1024.0) * (1024.0 * p) == bytes;
  }

  /** The unit chosen from step `k` on is the first from there whose scaled
      value is below 1024, or terabytes; the value is the input divided by
      1024 once per unit passed. */
  lemma {:induction false} ScaledFromMeaning(bytes: real, k: nat)
    requires k <= 4
    ensures var (v, u) := ScaledFrom(bytes / Power(k), k);
      && k <= u.Exponent()
      && v == bytes / Power(u.Exponent())
      && (u != TB ==> v < 1024.0)
      && forall j | k <= j < u.Exponent() :: bytes / Power(j) >= 1024.0
    decreases 4 - k
  {
    if k < 4 && bytes / Power(k) >= 1024.0 {
      DivideAgain(bytes, k);
      ScaledFromMeaning(bytes, k + 1);
    } else if k < 4 {
      assert SmallUnits[k].Exponent() == k;
    }
  }

  /** `format_bytes` picks the first of B, KB, MB, GB whose value is below
      1024, or TB when none is; the printed value is the input divided by
      1024 to the unit's exponent. */
  lemma ScaledMeaning(bytes: real)
    ensures var (v, u) := Scaled(bytes);
      && v == bytes / Power(u.Exponent())
      && (u != TB ==> v < 1024.0)
      && forall j | 0 <= j < u.Exponent() :: bytes / Power(j) >= 1024.0
  {
    assert bytes / Power(0) == bytes;
    ScaledFromMeaning(bytes, 0);
  }

  // ---------------------------------------------------------------------
  // Bars, lights and the evaluation
  // ---------------------------------------------------------------------

  /** Python's `int()` of a real: truncation toward zero. */
  function Trunc(x: real): int {
    if x >= 0.0 then x.Floor else -((-x).Floor)
  }

  /** `c * n`: a repeated character, empty for a count below one. */
  function Repeat(c: char, n: int): (s: string)
    ensures |s| == if n > 0 then n else 0
    ensures forall i | 0 <= i < |s| :: s[i] == c
    decreases if n > 0 then n else 0
  {
    if n <= 0 then "" else [c] + Repeat(c, n - 1)
  }

  /** A 50-cell bar with `filled` cells filled. */
  function Bar(filled: int): string {
    Repeat('█', filled) + Repeat('░', 50 - filled)
  }

  /** The CPU bar: one cell per two percent. */
  function CpuBar(cpuPercent: real): string {
    Bar(Trunc(cpuPercent / 2.0))
  }

  /** The memory bar: five cells per percent. */
  function MemoryBar(memPercent: real): string {
    Bar(Trunc(memPercent * 5.0))
  }

  /** A bar with between 0 and 50 cells filled is exactly 50 characters,
      filled cells first. */
  lemma BarShape(filled: int)
    requires 0 <= filled <= 50
    ensures |Bar(filled)| == 50
    ensures forall i | 0 <= i < 50 :: Bar(filled)[i] == if i < filled then '█' else '░'
  {
  }

  /** For a CPU reading from 0 to 100 the bar is exactly 50 characters, with
      one filled cell per whole two percent. */
  lemma CpuBarLength(cpuPercent: real)
    requires 0.0 <= cpuPercent <= 100.0
    ensures |CpuBar(cpuPercent)| == 50
    ensures forall i | 0 <= i < 50 :: CpuBar(cpuPercent)[i] == '█' <==> (i as real) + 1.0 <= cpuPercent / 2.0
  {
    var n := Trunc(cpuPercent / 2.0);
    assert 0 <= n <= 50;
    BarShape(n);
  }

  /** A memory share above 10% fills more than 50 cells and the bar grows
      past its frame; up to 10% it is exactly 50 characters. */
  lemma MemoryBarLength(memPercent: real)
    ensures 0.0 <= memPercent <= 10.0 ==> |MemoryBar(memPercent)| == 50
    ensures memPercent >= 10.2 ==> |MemoryBar(memPercent)| > 50
  {
    var n := Trunc(memPercent * 5.0);
    if 0.0 <= memPercent <= 10.0 {
      assert 0 <= n <= 50;
    }
  }

  datatype Light = GreenLight | YellowLight | RedLight

  /** The CPU light: below 5% green, below 15% yellow, otherwise red. */
  function CpuLight(cpuPercent: real): Light {
    if cpuPercent < 5.0 then GreenLight else if cpuPercent < 15.0 then YellowLight else RedLight
  }

  /** The memory light: below 1% green, below 2% yellow, otherwise red. */
  function MemoryLight(memPercent: real): Light {
    if memPercent < 1.0 then GreenLight else if memPercent < 2.0 then YellowLight else RedLight
  }

  datatype Verdict = Excellent | Good | Moderate | High
  {
    /** Worse verdicts rank higher. */
    function Rank(): nat {
      match this
      case Excellent => 0
      case Good => 1
      case Moderate => 2
      case High => 3
    }
  }

  /** A tier of the evaluation: both the CPU average and the memory share
      must be below its limits. */
  datatype Tier = Tier(cpuBelow: real, memoryBelow: real, verdict: Verdict)

  const Tiers: seq<Tier> := [Tier(5.0, 1.0, Excellent), Tier(10.0, 2.0, Good), Tier(20.0, 3.0, Moderate)]

  predicate Meets(t: Tier, avgCpu: real, memPercent: real) {
    avgCpu < t.cpuBelow && memPercent < t.memoryBelow
  }

  /** The evaluation of a sample, tested tier by tier. */
  function Evaluate(avgCpu: real, memPercent: real): Verdict {
    if avgCpu < 5.0 && memPercent < 1.0 then Excellent
    else if avgCpu < 10.0 && memPercent < 2.0 then Good
    else if avgCpu < 20.0 && memPercent < 3.0 then Moderate
    else High
  }

  /** The evaluation is the verdict of the first tier the sample meets, and
      "high" exactly when it meets none. */
  lemma EvaluateFirstTier(avgCpu: real, memPercent: real)
    ensures forall k | 0 <= k < |Tiers| ::
      (Evaluate(avgCpu, memPercent) == Tiers[k].verdict <==>
         Meets(Tiers[k], avgCpu, memPercent) && forall j | 0 <= j < k :: !Meets(Tiers[j], avgCpu, memPercent))
    ensures Evaluate(avgCpu, memPercent) == High <==> forall k | 0 <= k < |Tiers| :: !Meets(Tiers[k], avgCpu, memPercent)
  {
    assert Tiers[0] == Tier(5.0, 1.0, Excellent);
    assert Tiers[1] == Tier(10.0, 2.0, Good);
    assert Tiers[2] == Tier(20.0, 3.0, Moderate);
  }

  /** Using less CPU and memory never earns a worse verdict. */
  lemma EvaluateMonotone(cpu1: real, mem1: real, cpu2: real, mem2: real)
    requires cpu1 <= cpu2 && mem1 <= mem2
    ensures Evaluate(cpu1, mem1).Rank() <= Evaluate(cpu2, mem2).Rank()
  {
  }

  // ---------------------------------------------------------------------
  // The sampling loop's state
  // ---------------------------------------------------------------------

  /** How many CPU readings the average is taken over. */
  const WindowSize: nat := 60

  function Sum(s: seq<real>): real {
    if |s| == 0 then 0.0 else s[0] + Sum(s[1..])
  }

  function Mean(s: seq<real>): real
    requires |s| > 0
  {
    Sum(s) / (|s| as real)
  }

  /** Append a reading, then drop the oldest while over the window size. */
  function Window(samples: seq<real>, reading: real): seq<real> {
    var appended := samples + [reading];
    if |appended| > WindowSize then appended[1..] else appended
  }

  /** Python's `max` of two values (the first when equal). */
  function Max(a: real, b: real): (m: real)
    ensures m >= a && m >= b && (m == a || m == b)
  {
    if b > a then b else a
  }

  /** The maximum of `start` and every reading. */
  function MaxFrom(start: real, readings: seq<real>): real
    decreases |readings|
  {
    if |readings| == 0 then start else MaxFrom(Max(start, readings[0]), readings[1..])
  }

  /** The running maximum is at least the start and every reading, and is
      one of them. */
  lemma {:induction false} MaxFromBounds(start: real, readings: seq<real>)
    ensures MaxFrom(start, readings) >= start
    ensures forall i | 0 <= i < |readings| :: MaxFrom(start, readings) >= readings[i]
    ensures MaxFrom(start, readings) == start || exists i | 0 <= i < |readings| :: MaxFrom(start, readings) == readings[i]
    decreases |readings|
  {
    if |readings| > 0 {
      var next := Max(start, readings[0]);
      MaxFromBounds(next, readings[1..]);
      assert forall i | 1 <= i < |readings| :: readings[1..][i - 1] == readings[i];
      if MaxFrom(next, readings[1..]) != next {
        var i :| 0 <= i < |readings[1..]| && MaxFrom(next, readings[1..]) == readings[1..][i];
        assert MaxFrom(start, readings) == readings[i + 1];
      }
    }
  }

  /** Taking one more reading into the running maximum. */
  lemma {:induction false} MaxFromSnoc(start: real, readings: seq<real>, x: real)
    ensures MaxFrom(start, readings + [x]) == Max(MaxFrom(start, readings), x)
    decreases |readings|
  {
    if |readings| == 0 {
      assert (readings + [x])[1..] == [];
    } else {
      assert (readings + [x])[1..] == readings[1..] + [x];
      MaxFromSnoc(Max(start, readings[0]), readings[1..], x);
    }
  }

  /** The window's sum lies between its length times a lower and an upper
      bound of its readings. */
  lemma {:induction false} SumWithin(s: seq<real>, lo: real, hi: real)
    requires forall i | 0 <= i < |s| :: lo <= s[i] <= hi
    ensures (|s| as real) * lo <= Sum(s) <= (|s| as real) * hi
  {
    if |s| > 0 {
      assert forall i | 0 <= i < |s| - 1 :: s[1..][i] == s[i + 1];
      SumWithin(s[1..], lo, hi);
      assert (|s| as real) * lo == lo + ((|s| - 1) as real) * lo;
      assert (|s| as real) * hi == hi + ((|s| - 1) as real) * hi;
    }
  }

  /** The mean of a window lies between bounds of its readings. */
  lemma MeanWithin(s: seq<real>, lo: real, hi: real)
    requires |s| > 0
    requires forall i | 0 <= i < |s| :: lo <= s[i] <= hi
    ensures lo <= Mean(s) <= hi
  {
    SumWithin(s, lo, hi);
    var n := |s| as real;
    assert Mean(s) * n == Sum(s);
  }

  /** The loop's accumulated statistics. */
  class Statistics {
    var maxCpu: real
    var maxMemory: int
    var samples: seq<real>
    /** Every CPU reading and resident size taken so far, oldest first. */
    ghost var cpuSeen: seq<real>
    ghost var memorySeen: seq<int>

    /** The window is the newest readings, and the maxima are the running
        maxima of everything seen, from zero. */
    ghost predicate Valid()
      reads this
    {
      && samples == LastN(cpuSeen, WindowSize)
      && maxCpu == MaxFrom(0.0, cpuSeen)
      && maxMemory as real == MaxFrom(0.0, IntsAsReals(memorySeen))
    }

    constructor()
      ensures Valid() && samples == [] && cpuSeen == [] && memorySeen == []
      ensures maxCpu == 0.0 && maxMemory == 0
    {
      maxCpu := 0.0;
      maxMemory := 0;
      samples := [];
      cpuSeen := [];
      memorySeen := [];
    }

    /** One pass of the loop on the readings it takes: the CPU share, the
        resident size and the memory share. Returns the window's mean and
        the evaluation. */
    method Sample(cpuPercent: real, memoryRss: int, memPercent: real) returns (avgCpu: real, verdict: Verdict)
      requires Valid()
      modifies this
      ensures Valid()
      ensures cpuSeen == old(cpuSeen) + [cpuPercent] && memorySeen == old(memorySeen) + [memoryRss]
      ensures samples == Window(old(samples), cpuPercent)
      ensures 0 < |samples| <= WindowSize && samples[|samples| - 1] == cpuPercent
      ensures avgCpu == Mean(samples)
      ensures maxCpu == Max(old(maxCpu), cpuPercent) && maxMemory == if memoryRss > old(maxMemory) then memoryRss else old(maxMemory)
      ensures forall i | 0 <= i < |cpuSeen| :: cpuSeen[i] <= maxCpu
      ensures forall i | 0 <= i < |memorySeen| :: memorySeen[i] <= maxMemory
      ensures avgCpu <= maxCpu
      ensures verdict == Evaluate(avgCpu, memPercent)
    {
      samples := samples + [cpuPercent];
      if |samples| > WindowSize {
        samples := samples[1..];
      }
      avgCpu := Sum(samples) / (|samples| as real);
      maxCpu := Max(maxCpu, cpuPercent);
      if memoryRss > maxMemory {
        maxMemory := memoryRss;
      }
      WindowKeepsNewest(cpuSeen, cpuPercent);
      MaxFromSnoc(0.0, cpuSeen, cpuPercent);
      cpuSeen := cpuSeen + [cpuPercent];
      MemoryMaxStep(memorySeen, memoryRss, old(maxMemory));
      memorySeen := memorySeen + [memoryRss];
      MaxFromBounds(0.0, cpuSeen);
      MaxFromBounds(0.0, IntsAsReals(memorySeen));
      WindowBelowMax(samples, cpuSeen);
      MeanWithin(samples, Lowest(samples), maxCpu);
      verdict := Evaluate(avgCpu, memPercent);
    }
  }

  function IntsAsReals(s: seq<int>): (r: seq<real>)
    ensures |r| == |s| && forall i | 0 <= i < |s| :: r[i] == s[i] as real
  {
    if |s| == 0 then [] else [s[0] as real] + IntsAsReals(s[1..])
  }

  /** The least reading of a non-empty window. */
  function Lowest(s: seq<real>): (m: real)
    requires |s| > 0
    ensures forall i | 0 <= i < |s| :: m <= s[i]
  {
    if |s| == 1 then s[0]
    else var rest := Lowest(s[1..]); if s[0] < rest then s[0] else rest
  }

  /** The window update keeps the window equal to the newest readings. */
  lemma WindowKeepsNewest(seen: seq<real>, x: real)
    ensures Window(LastN(seen, WindowSize), x) == LastN(seen + [x], WindowSize)
  {
    var w := LastN(seen, WindowSize);
    var all := seen + [x];
    if |seen| < WindowSize {
      assert Window(w, x) == all;
    } else if |seen| == WindowSize {
      assert Window(w, x) == all[1..];
      assert LastN(all, WindowSize) == all[1..];
    } else {
      var n := |seen| - WindowSize;
      assert w == seen[n..];
      assert Window(w, x) == (seen[n..] + [x])[1..];
      assert (seen[n..] + [x])[1..] == seen[n + 1..] + [x];
      assert LastN(all, WindowSize) == all[n + 1..];
      assert all[n + 1..] == seen[n + 1..] + [x];
    }
  }

  /** Every reading of the window was seen, so is at most the running maximum. */
  lemma WindowBelowMax(window: seq<real>, seen: seq<real>)
    requires window == LastN(seen, WindowSize)
    ensures forall i | 0 <= i < |window| :: window[i] <= MaxFrom(0.0, seen)
  {
    MaxFromBounds(0.0, seen);
    if |seen| > WindowSize {
      forall i | 0 <= i < |window|
        ensures window[i] <= MaxFrom(0.0, seen)
      {
        assert window[i] == seen[|seen| - WindowSize + i];
      }
    }
  }

  /** The integer running maximum of the resident sizes, one reading later. */
  lemma MemoryMaxStep(seen: seq<int>, x: int, m: int)
    requires m as real == MaxFrom(0.0, IntsAsReals(seen))
    ensures (if x > m then x else m) as real == MaxFrom(0.0, IntsAsReals(seen + [x]))
  {
    assert IntsAsReals(seen + [x]) == IntsAsReals(seen) + [x as real];
    MaxFromSnoc(0.0, IntsAsReals(seen), x as real);
  }
}
