/**
 * The exporter's per-tick state machine: instant CPU/GPU power, the running
 * peaks, the five-entry moving-average windows, the ANE utilisation, the
 * snapshot dictionary and the gauges it feeds, the push batch built from the
 * snapshot, and the sampler rotation driven by the epoch token.
 */
module Exporter {
  import opened Wrappers
  import opened Text
  import opened Utils

  // ---------------------------------------------------------------------------
  // Moving average over a bounded window
  // ---------------------------------------------------------------------------

  /** Average power over an interval: the energy it used divided by its length. */
  function PowerOf(energy: real, interval: real): real
    requires interval != 0.0
  {
    energy / interval
  }

  /** The capacity of each power window (`deque(maxlen=5)`). */
  const WindowSize: nat := 5

  function Sum(w: seq<real>): real
  {
    if w == [] then 0.0 else w[0] + Sum(w[1..])
  }

  /** `get_avg`: the arithmetic mean of a non-empty window. */
  function Avg(w: seq<real>): real
    requires |w| > 0
  {
    Sum(w) / (|w| as real)
  }

  lemma {:induction false} SumAtMost(w: seq<real>, hi: real)
    requires forall i :: 0 <= i < |w| ==> w[i] <= hi
    ensures Sum(w) <= (|w| as real) * hi
  {
    if w != [] {
      SumAtMost(w[1..], hi);
    }
  }

  lemma {:induction false} SumAtLeast(w: seq<real>, lo: real)
    requires forall i :: 0 <= i < |w| ==> lo <= w[i]
    ensures (|w| as real) * lo <= Sum(w)
  {
    if w != [] {
      SumAtLeast(w[1..], lo);
    }
  }

  /** The mean never exceeds a bound on every entry of the window. */
  lemma AvgAtMost(w: seq<real>, hi: real)
    requires |w| > 0
    requires forall i :: 0 <= i < |w| ==> w[i] <= hi
    ensures Avg(w) <= hi
  {
    SumAtMost(w, hi);
  }

  /** The mean is never below a bound on every entry of the window. */
  lemma AvgAtLeast(w: seq<real>, lo: real)
    requires |w| > 0
    requires forall i :: 0 <= i < |w| ==> lo <= w[i]
    ensures lo <= Avg(w)
  {
    SumAtLeast(w, lo);
  }

  /** The last `n` entries of a history, oldest first. */
  function LastN(xs: seq<real>, n: nat): (r: seq<real>)
    ensures |r| == if |xs| <= n then |xs| else n
  {
    if |xs| <= n then xs else xs[|xs| - n..]
  }

  /**
   * `deque.append` on a window bounded by `WindowSize`: the new entry goes
   * last, and only when the window is full is the oldest entry evicted; the
   * other entries keep their order.
   */
  function Push(w: seq<real>, x: real): (r: seq<real>)
    requires |w| <= WindowSize
    ensures |r| == if |w| < WindowSize then |w| + 1 else WindowSize
  {
    if |w| < WindowSize then w + [x] else w[1..] + [x]
  }

  /** The pushed entry is last, and before it come the newest entries of the old window. */
  lemma PushShape(w: seq<real>, x: real)
    requires |w| <= WindowSize
    ensures Push(w, x)[|Push(w, x)| - 1] == x
    ensures Push(w, x)[..|Push(w, x)| - 1] == w[|w| + 1 - |Push(w, x)|..]
  {
  }

  /**
   * Pushing every power of a history in turn leaves exactly its last five
   * entries in the window.
   */
  lemma WindowOfHistory(xs: seq<real>, x: real)
    ensures LastN(xs + [x], WindowSize) == Push(LastN(xs, WindowSize), x)
  {
    if |xs| < WindowSize {
      assert LastN(xs, WindowSize) == xs;
      assert LastN(xs + [x], WindowSize) == xs + [x];
    } else {
      var w := xs[|xs| - WindowSize..];
      var tail := xs[|xs| + 1 - WindowSize..];
      assert LastN(xs, WindowSize) == w;
      assert LastN(xs + [x], WindowSize) == (xs + [x])[|xs| + 1 - WindowSize..];
      assert (xs + [x])[|xs| + 1 - WindowSize..] == tail + [x];
      assert w[1..] == tail;
    }
  }

  /** The window after the inputs 10, 20, 30, 40, 50, 60 averages to 40. */
  lemma AvgExample()
    ensures LastN([10.0, 20.0, 30.0, 40.0, 50.0, 60.0], WindowSize) == [20.0, 30.0, 40.0, 50.0, 60.0]
    ensures Avg(LastN([10.0, 20.0, 30.0, 40.0, 50.0, 60.0], WindowSize)) == 40.0
  {
    var w := [20.0, 30.0, 40.0, 50.0, 60.0];
    assert [10.0, 20.0, 30.0, 40.0, 50.0, 60.0][1..] == w;
    assert Sum(w) == 200.0;
  }

  // ---------------------------------------------------------------------------
  // Running peak
  // ---------------------------------------------------------------------------

  /** The peak is raised only when the new power exceeds it. */
  function RaisePeak(peak: real, x: real): (r: real)
    ensures peak <= r && x <= r
    ensures r == peak || r == x
  {
    if x > peak then x else peak
  }

  /** The peak after a history of powers, starting from 0. */
  function PeakOf(xs: seq<real>): real
  {
    if xs == [] then 0.0 else RaisePeak(PeakOf(xs[..|xs| - 1]), xs[|xs| - 1])
  }

  /**
   * The peak is the maximum of 0 and every power seen: it bounds every entry
   * and is either 0 or one of them.
   */
  lemma {:induction false} PeakIsMaximum(xs: seq<real>)
    ensures 0.0 <= PeakOf(xs)
    ensures forall i :: 0 <= i < |xs| ==> xs[i] <= PeakOf(xs)
    ensures PeakOf(xs) == 0.0 || exists i :: 0 <= i < |xs| && xs[i] == PeakOf(xs)
  {
    if xs != [] {
      var front := xs[..|xs| - 1];
      PeakIsMaximum(front);
      assert forall i :: 0 <= i < |front| ==> front[i] == xs[i];
      if PeakOf(xs) != 0.0 && PeakOf(xs) != xs[|xs| - 1] {
        var i :| 0 <= i < |front| && front[i] == PeakOf(front);
        assert xs[i] == PeakOf(xs);
      }
    }
  }

  /** Peaks never decrease as the history grows. */
  lemma {:induction false} PeakMonotone(xs: seq<real>, ys: seq<real>)
    requires xs <= ys
    ensures PeakOf(xs) <= PeakOf(ys)
  {
    if |xs| < |ys| {
      var front := ys[..|ys| - 1];
      assert xs <= front;
      PeakMonotone(xs, front);
      assert PeakOf(ys) == RaisePeak(PeakOf(front), ys[|ys| - 1]);
    } else {
      assert xs == ys;
    }
  }

  /** For the powers 5, 3, 9, 2 the successive peaks are 5, 5, 9, 9. */
  lemma PeakExample()
    ensures PeakOf([5.0]) == 5.0
    ensures PeakOf([5.0, 3.0]) == 5.0
    ensures PeakOf([5.0, 3.0, 9.0]) == 9.0
    ensures PeakOf([5.0, 3.0, 9.0, 2.0]) == 9.0
  {
    assert [5.0][..0] == [];
    assert [5.0, 3.0][..1] == [5.0];
    assert [5.0, 3.0, 9.0][..2] == [5.0, 3.0];
    assert [5.0, 3.0, 9.0, 2.0][..3] == [5.0, 3.0, 9.0];
  }

  /** A peak and a window are those of a power history. */
  ghost predicate Follows(peak: real, window: seq<real>, history: seq<real>)
  {
    peak == PeakOf(history) && window == LastN(history, WindowSize)
  }

  /** One more power advances the peak and the window as `update_host` does. */
  lemma HistoryStep(peak: real, window: seq<real>, history: seq<real>, x: real)
    requires Follows(peak, window, history)
    ensures |window| <= WindowSize
    ensures Follows(RaisePeak(peak, x), Push(window, x), history + [x])
  {
    assert (history + [x])[..|history|] == history;
    WindowOfHistory(history, x);
  }

  /**
   * One device's part of `update_host`: the peak is raised when the new power
   * exceeds it, the power joins the window and the window is averaged.
   */
  method AdvanceDevice(peak: real, window: seq<real>, ghost history: seq<real>, power: real)
    returns (newPeak: real, newWindow: seq<real>, avg: real)
    requires Follows(peak, window, history)
    ensures newPeak == RaisePeak(peak, power) && newWindow == Push(window, power)
    ensures Follows(newPeak, newWindow, history + [power])
    ensures avg == Avg(newWindow)
  {
    HistoryStep(peak, window, history, power);
    newPeak := peak;
    if power > peak {
      newPeak := power;
    }
    newWindow := Push(window, power);
    avg := Avg(newWindow);
  }

  /** The reported average never exceeds the reported peak. */
  lemma AvgWithinPeak(xs: seq<real>)
    requires |xs| > 0
    ensures Avg(LastN(xs, WindowSize)) <= PeakOf(xs)
  {
    PeakIsMaximum(xs);
    var w := LastN(xs, WindowSize);
    forall i | 0 <= i < |w| ensures w[i] <= PeakOf(xs) {
      assert w[i] == xs[|xs| - |w| + i];
    }
    AvgAtMost(w, PeakOf(xs));
  }

  // ---------------------------------------------------------------------------
  // Truncation and the ANE utilisation
  // ---------------------------------------------------------------------------

  /** Python's `int()` on a float: the fraction is dropped, rounding toward zero. */
  function TruncToInt(x: real): (r: int)
    ensures 0.0 <= x ==> r as real <= x < r as real + 1.0
    ensures x < 0.0 ==> r as real - 1.0 < x <= r as real
  {
    if x >= 0.0 then x.Floor else -((-x).Floor)
  }

  /** The ANE's nominal maximum power, in watts. */
  const AneMaxPower := 8.0

  /** ANE utilisation percent: energy per interval over the nominal maximum, truncated. */
  function AnePercent(aneW: real, interval: real): int
    requires interval != 0.0
  {
    TruncToInt(PowerOf(aneW, interval) / AneMaxPower * 100.0)
  }

  /** 4 J over 5 s is 10 %; nothing clamps the result to 100 or to 0. */
  lemma AnePercentExamples()
    ensures AnePercent(4.0, 5.0) == 10
    ensures AnePercent(16.0, 1.0) == 200
    ensures AnePercent(-4.0, 5.0) == -10
    ensures AnePercent(1.0, 1.0) == 12
  {
  }

  // ---------------------------------------------------------------------------
  // The snapshot dictionary
  // ---------------------------------------------------------------------------

  predicate Distinct<K(==)>(ks: seq<K>)
  {
    forall i, j :: 0 <= i < j < |ks| ==> ks[i] != ks[j]
  }

  /** A Python dict: its keys in insertion order and the key-to-value map. */
  datatype Dict<K(==)> = Dict(keys: seq<K>, values: map<K, real>)
  {
    ghost predicate Valid()
    {
      Distinct(keys)
      && (forall i :: 0 <= i < |keys| ==> keys[i] in values)
      && (forall k :: k in values ==> k in keys)
    }
  }

  /** `d[k] = v`: a new key goes last, an existing key keeps its place. */
  function Assign<K(==)>(d: Dict<K>, k: K, v: real): (r: Dict<K>)
    requires d.Valid()
    ensures r.Valid()
    ensures r.keys == if k in d.values then d.keys else d.keys + [k]
    ensures r.values == d.values[k := v]
  {
    if k in d.values then d.(values := d.values[k := v]) else Dict(d.keys + [k], d.values[k := v])
  }

  /** The assignments `d[ks[0]] = vs[0]`, …, in order. */
  function AssignAll<K(==)>(d: Dict<K>, ks: seq<K>, vs: seq<real>): (r: Dict<K>)
    requires d.Valid() && |ks| == |vs|
    ensures r.Valid()
  {
    if ks == [] then d
    else Assign(AssignAll(d, ks[..|ks| - 1], vs[..|vs| - 1]), ks[|ks| - 1], vs[|vs| - 1])
  }

  /** The map updates `g[ks[0]] = vs[0]`, …, in order. */
  function PublishAll<K(==)>(g: map<K, real>, ks: seq<K>, vs: seq<real>): map<K, real>
    requires |ks| == |vs|
  {
    if ks == [] then g
    else PublishAll(g, ks[..|ks| - 1], vs[..|vs| - 1])[ks[|ks| - 1] := vs[|vs| - 1]]
  }

  /** The keys of `ks` not in `present`, each once, in order of first appearance. */
  function NewKeys<K(==)>(ks: seq<K>, present: set<K>): seq<K>
  {
    if ks == [] then []
    else
      var f := NewKeys(ks[..|ks| - 1], present);
      var k := ks[|ks| - 1];
      if k in present || k in f then f else f + [k]
  }

  /** Assigning writes the same values as updating the plain map. */
  lemma {:induction false} AssignAllValues<K>(d: Dict<K>, ks: seq<K>, vs: seq<real>)
    requires d.Valid() && |ks| == |vs|
    ensures AssignAll(d, ks, vs).values == PublishAll(d.values, ks, vs)
  {
    if ks != [] {
      AssignAllValues(d, ks[..|ks| - 1], vs[..|vs| - 1]);
    }
  }

  /** Assigning keeps the old key order and appends each new key once. */
  lemma {:induction false} AssignAllKeys<K>(d: Dict<K>, ks: seq<K>, vs: seq<real>)
    requires d.Valid() && |ks| == |vs|
    ensures AssignAll(d, ks, vs).keys == d.keys + NewKeys(ks, d.values.Keys)
  {
    if ks != [] {
      var front := ks[..|ks| - 1];
      AssignAllKeys(d, front, vs[..|vs| - 1]);
      var r := AssignAll(d, front, vs[..|vs| - 1]);
      var k := ks[|ks| - 1];
      var f := NewKeys(front, d.values.Keys);
      assert AssignAll(d, ks, vs) == Assign(r, k, vs[|vs| - 1]);
      assert NewKeys(ks, d.values.Keys) == if k in d.values.Keys || k in f then f else f + [k];
      AssignKeysStep(d, r, f, k, vs[|vs| - 1]);
    }
  }

  /** One assignment on top of `d`'s keys followed by new keys `f`. */
  lemma AssignKeysStep<K>(d: Dict<K>, r: Dict<K>, f: seq<K>, k: K, v: real)
    requires d.Valid() && r.Valid() && r.keys == d.keys + f
    ensures Assign(r, k, v).keys == d.keys + (if k in d.values.Keys || k in f then f else f + [k])
  {
    assert k in r.values <==> k in r.keys;
    assert k in r.keys <==> k in d.keys || k in f;
    assert k in d.keys <==> k in d.values;
  }

  lemma {:induction false} NewKeysOfFresh<K>(ks: seq<K>)
    requires Distinct(ks)
    ensures NewKeys(ks, {}) == ks
  {
    if ks != [] {
      var front := ks[..|ks| - 1];
      NewKeysOfFresh(front);
      assert ks[|ks| - 1] !in front by {
        forall i | 0 <= i < |front| ensures front[i] != ks[|ks| - 1] {
          assert front[i] == ks[i];
        }
      }
    }
  }

  lemma {:induction false} NewKeysOfPresent<K>(ks: seq<K>, present: set<K>)
    requires forall i :: 0 <= i < |ks| ==> ks[i] in present
    ensures NewKeys(ks, present) == []
  {
    if ks != [] {
      NewKeysOfPresent(ks[..|ks| - 1], present);
    }
  }

  /** A later update of a key wins over an earlier one; untouched keys keep their value. */
  lemma {:induction false} PublishAllLookup<K>(g: map<K, real>, ks: seq<K>, vs: seq<real>)
    requires |ks| == |vs| && Distinct(ks)
    ensures forall i :: 0 <= i < |ks| ==> ks[i] in PublishAll(g, ks, vs) && PublishAll(g, ks, vs)[ks[i]] == vs[i]
    ensures forall k :: k !in ks ==> (k in PublishAll(g, ks, vs) <==> k in g)
    ensures forall k :: k !in ks && k in g ==> PublishAll(g, ks, vs)[k] == g[k]
  {
    if ks != [] {
      var front := ks[..|ks| - 1];
      var vfront := vs[..|vs| - 1];
      assert Distinct(front) by {
        forall i, j | 0 <= i < j < |front| ensures front[i] != front[j] {
          assert front[i] == ks[i] && front[j] == ks[j];
        }
      }
      PublishAllLookup(g, front, vfront);
      forall i | 0 <= i < |ks| - 1 ensures ks[i] != ks[|ks| - 1] && ks[i] == front[i] && vs[i] == vfront[i] {
      }
    }
  }

  // ---------------------------------------------------------------------------
  // The 20 metrics
  // ---------------------------------------------------------------------------

  /** The entries of `metrics_dict`, each shown by one gauge. */
  datatype Metric =
    | HostEcpuPercent | HostEcpuClock | HostPcpuPercent | HostPcpuClock
    | HostGpuPercent | HostGpuClock | HostAnePercent | HostAnePower
    | HostRamTotal | HostRamUsed | HostRamFree
    | HostSwapTotal | HostSwapUsed | HostSwapFree
    | HostCpuPower | HostCpuPeakPower | HostCpuAvgPower
    | HostGpuPower | HostGpuPeakPower | HostGpuAvgPower
  {
    /** The key of the entry in `metrics_dict`, and the `url` tag of its pushed record. */
    function Key(): string
    {
      match this
      case HostEcpuPercent => "host_ecpu_percent"
      case HostEcpuClock => "host_ecpu_clock"
      case HostPcpuPercent => "host_pcpu_percent"
      case HostPcpuClock => "host_pcpu_clock"
      case HostGpuPercent => "host_gpu_percent"
      case HostGpuClock => "host_gpu_clock"
      case HostAnePercent => "host_ane_percent"
      case HostAnePower => "host_ane_power"
      case HostRamTotal => "host_ram_total"
      case HostRamUsed => "host_ram_used"
      case HostRamFree => "host_ram_free"
      case HostSwapTotal => "host_swap_total"
      case HostSwapUsed => "host_swap_used"
      case HostSwapFree => "host_swap_free"
      case HostCpuPower => "host_cpu_power"
      case HostCpuPeakPower => "host_cpu_peak_power"
      case HostCpuAvgPower => "host_cpu_avg_power"
      case HostGpuPower => "host_gpu_power"
      case HostGpuPeakPower => "host_gpu_peak_power"
      case HostGpuAvgPower => "host_gpu_avg_power"
    }

    /** The position of the entry in the write order. */
    function Index(): nat
    {
      match this
      case HostEcpuPercent => 0
      case HostEcpuClock => 1
      case HostPcpuPercent => 2
      case HostPcpuClock => 3
      case HostGpuPercent => 4
      case HostGpuClock => 5
      case HostAnePercent => 6
      case HostAnePower => 7
      case HostRamTotal => 8
      case HostRamUsed => 9
      case HostRamFree => 10
      case HostSwapTotal => 11
      case HostSwapUsed => 12
      case HostSwapFree => 13
      case HostCpuPower => 14
      case HostCpuPeakPower => 15
      case HostCpuAvgPower => 16
      case HostGpuPower => 17
      case HostGpuPeakPower => 18
      case HostGpuAvgPower => 19
    }

    /** The name the gauge for this entry is registered under. */
    function GaugeName(): string
    {
      match this
      case HostEcpuPercent => "host_ECPU_percent"
      case HostEcpuClock => "host_ECPU_clock"
      case HostPcpuPercent => "host_PCPU_percent"
      case HostPcpuClock => "host_PCPU_clock"
      case HostGpuPercent => "host_GPU_percent"
      case HostGpuClock => "host_GPU_clock"
      case HostAnePercent => "host_ANE_percent"
      case HostAnePower => "host_ANE_power"
      case HostRamTotal => "host_RAM_total"
      case HostRamUsed => "host_RAM_uesd"
      case HostRamFree => "host_RAM_free"
      case HostSwapTotal => "host_swap_total"
      case HostSwapUsed => "host_swap_uesd"
      case HostSwapFree => "host_swap_free"
      case HostCpuPower => "host_cpu_power"
      case HostCpuPeakPower => "host_cpu_peak_power"
      case HostCpuAvgPower => "host_cpu_avg_power"
      case HostGpuPower => "host_gpu_power"
      case HostGpuPeakPower => "host_gpu_peak_power"
      case HostGpuAvgPower => "host_gpu_avg_power"
    }
  }

  /** The entry `update_host` writes at position `i`. */
  function MetricAt(i: nat): (m: Metric)
    requires i < 20
    ensures m.Index() == i
  {
    match i
    case 0 => HostEcpuPercent
    case 1 => HostEcpuClock
    case 2 => HostPcpuPercent
    case 3 => HostPcpuClock
    case 4 => HostGpuPercent
    case 5 => HostGpuClock
    case 6 => HostAnePercent
    case 7 => HostAnePower
    case 8 => HostRamTotal
    case 9 => HostRamUsed
    case 10 => HostRamFree
    case 11 => HostSwapTotal
    case 12 => HostSwapUsed
    case 13 => HostSwapFree
    case 14 => HostCpuPower
    case 15 => HostCpuPeakPower
    case 16 => HostCpuAvgPower
    case 17 => HostGpuPower
    case 18 => HostGpuPeakPower
    case _ => HostGpuAvgPower
  }

  /** The order in which `update_host` writes the entries. */
  const MetricOrder: seq<Metric> := seq(20, i requires 0 <= i < 20 => MetricAt(i))

  /** Every metric is written exactly once per update, at its own position. */
  lemma MetricOrderComplete()
    ensures |MetricOrder| == 20 && Distinct(MetricOrder)
    ensures forall m: Metric :: m.Index() < |MetricOrder| && MetricOrder[m.Index()] == m
  {
    forall i, j | 0 <= i < j < |MetricOrder|
      ensures MetricOrder[i] != MetricOrder[j]
    {
      assert MetricOrder[i].Index() == i && MetricOrder[j].Index() == j;
    }
    forall m: Metric
      ensures m.Index() < |MetricOrder| && MetricOrder[m.Index()] == m
    {
      assert MetricAt(m.Index()) == m by {
        match m
        case HostEcpuPercent =>
        case HostEcpuClock =>
        case HostPcpuPercent =>
        case HostPcpuClock =>
        case HostGpuPercent =>
        case HostGpuClock =>
        case HostAnePercent =>
        case HostAnePower =>
        case HostRamTotal =>
        case HostRamUsed =>
        case HostRamFree =>
        case HostSwapTotal =>
        case HostSwapUsed =>
        case HostSwapFree =>
        case HostCpuPower =>
        case HostCpuPeakPower =>
        case HostCpuAvgPower =>
        case HostGpuPower =>
        case HostGpuPeakPower =>
        case HostGpuAvgPower =>
      }
    }
  }

  /** Distinct entries have distinct dictionary keys, so a key names one entry. */
  lemma KeyInjective(a: Metric, b: Metric)
    requires a.Key() == b.Key()
    ensures a == b
  {
  }

  /** Distinct entries have distinct gauges. */
  lemma GaugeNameInjective(a: Metric, b: Metric)
    requires a.GaugeName() == b.GaugeName()
    ensures a == b
  {
  }

  /** A dictionary holding every metric, keyed in write order, is well formed. */
  lemma CompleteValid(d: Dict<Metric>)
    requires d.keys == MetricOrder && forall m :: m in d.values
    ensures d.Valid()
  {
    MetricOrderComplete();
    forall k | k in d.values
      ensures k in d.keys
    {
      assert d.keys[k.Index()] == k;
    }
  }

  /** The fields of one parsed sampler reading that the update uses. */
  datatype Sample = Sample(
    eClusterActive: real, eClusterFreqMhz: real,
    pClusterActive: real, pClusterFreqMhz: real,
    gpuActive: real, gpuFreqMhz: real,
    aneW: real, cpuW: real, gpuW: real)

  /** The RAM and swap figures, in GB. */
  datatype Ram = Ram(
    totalGB: real, usedGB: real, freeGB: real,
    swapTotalGB: real, swapUsedGB: real, swapFreeGB: real)

  /** Everything one update publishes: the inputs and the derived power figures. */
  datatype Reading = Reading(
    sample: Sample, ram: Ram, interval: real,
    cpuPower: real, cpuPeak: real, cpuAvg: real,
    gpuPower: real, gpuPeak: real, gpuAvg: real)

  /** The value an update writes for each metric. */
  function MetricValue(m: Metric, r: Reading): real
    requires r.interval != 0.0
  {
    match m
    case HostEcpuPercent => r.sample.eClusterActive
    case HostEcpuClock => r.sample.eClusterFreqMhz
    case HostPcpuPercent => r.sample.pClusterActive
    case HostPcpuClock => r.sample.pClusterFreqMhz
    case HostGpuPercent => r.sample.gpuActive
    case HostGpuClock => r.sample.gpuFreqMhz
    case HostAnePercent => AnePercent(r.sample.aneW, r.interval) as real
    case HostAnePower => PowerOf(r.sample.aneW, r.interval)
    case HostRamTotal => r.ram.totalGB
    case HostRamUsed => r.ram.usedGB
    case HostRamFree => r.ram.freeGB
    case HostSwapTotal => r.ram.swapTotalGB
    case HostSwapUsed => r.ram.swapUsedGB
    case HostSwapFree => r.ram.swapFreeGB
    case HostCpuPower => r.cpuPower
    case HostCpuPeakPower => r.cpuPeak
    case HostCpuAvgPower => r.cpuAvg
    case HostGpuPower => r.gpuPower
    case HostGpuPeakPower => r.gpuPeak
    case HostGpuAvgPower => r.gpuAvg
  }

  /** The values for a list of metrics, index for index. */
  function Values(ms: seq<Metric>, r: Reading): (vs: seq<real>)
    requires r.interval != 0.0
    ensures |vs| == |ms|
    ensures forall i :: 0 <= i < |ms| ==> vs[i] == MetricValue(ms[i], r)
  {
    if ms == [] then [] else Values(ms[..|ms| - 1], r) + [MetricValue(ms[|ms| - 1], r)]
  }

  /**
   * Assigning distinct keys to a dictionary that is empty or already holds
   * exactly those keys leaves exactly them, in assignment order, each holding
   * its new value.
   */
  lemma {:induction false} Rewrite<K>(d: Dict<K>, ks: seq<K>, vs: seq<real>)
    requires d.Valid() && |ks| == |vs| && Distinct(ks)
    requires d.keys == [] || d.keys == ks
    ensures AssignAll(d, ks, vs).keys == ks
    ensures forall i :: 0 <= i < |ks| ==> ks[i] in AssignAll(d, ks, vs).values
    ensures forall i :: 0 <= i < |ks| ==> AssignAll(d, ks, vs).values[ks[i]] == vs[i]
  {
    AssignAllKeys(d, ks, vs);
    AssignAllValues(d, ks, vs);
    PublishAllLookup(d.values, ks, vs);
    if d.keys == [] {
      assert d.values.Keys == {};
      NewKeysOfFresh(ks);
    } else {
      NewKeysOfPresent(ks, d.values.Keys);
    }
  }

  /**
   * Writing the 20 entries into a snapshot that is empty or complete leaves a
   * complete snapshot, in write order, every entry holding this update's value.
   */
  lemma MetricSnapshot(d: Dict<Metric>, r: Reading, vs: seq<real>)
    requires d.Valid() && r.interval != 0.0 && vs == Values(MetricOrder, r)
    requires d.keys == [] || d.keys == MetricOrder
    ensures AssignAll(d, MetricOrder, vs).keys == MetricOrder
    ensures forall m :: m in AssignAll(d, MetricOrder, vs).values
    ensures forall m :: AssignAll(d, MetricOrder, vs).values[m] == MetricValue(m, r)
  {
    MetricOrderComplete();
    Rewrite(d, MetricOrder, vs);
    var e := AssignAll(d, MetricOrder, vs);
    forall m ensures m in e.values && e.values[m] == MetricValue(m, r) {
      assert MetricOrder[m.Index()] == m;
    }
  }

  /** Setting every gauge in write order leaves each gauge at this update's value. */
  lemma GaugesSnapshot(g: map<Metric, real>, r: Reading, vs: seq<real>)
    requires r.interval != 0.0 && vs == Values(MetricOrder, r)
    ensures forall m :: m in PublishAll(g, MetricOrder, vs)
    ensures forall m :: PublishAll(g, MetricOrder, vs)[m] == MetricValue(m, r)
  {
    MetricOrderComplete();
    PublishAllLookup(g, MetricOrder, vs);
    var p := PublishAll(g, MetricOrder, vs);
    forall m ensures m in p && p[m] == MetricValue(m, r) {
      assert MetricOrder[m.Index()] == m;
    }
  }

  // ---------------------------------------------------------------------------
  // The push batch
  // ---------------------------------------------------------------------------

  /** One pushed record, the JSON object `post_result` builds. */
  datatype Record = Record(
    cluster: string, namespace: string, nodeip: string, endpoint: string,
    metric: string, value: real, step: int, counterType: string,
    timestamp: int, uuid: string, url: string, serviceName: string,
    monitorType: string)

  /** The record template shared by one batch. */
  function Template(ip: string, uuid: string, timestamp: int, step: int): Record
  {
    Record("jmlj-tonglu-productk8s", "ezagi", ip, ip, "Throughput", 1.0, step,
           "COUNTER", timestamp, uuid, "", "ezagi_algo_m2_iaas", "iaas")
  }

  /** One record per key of `ks`, in order, carrying the key as `url` and its value. */
  function BatchOf(t: Record, ks: seq<Metric>, m: map<Metric, real>): seq<Record>
    requires forall i :: 0 <= i < |ks| ==> ks[i] in m
  {
    if ks == [] then []
    else BatchOf(t, ks[..|ks| - 1], m) + [t.(url := ks[|ks| - 1].Key(), value := m[ks[|ks| - 1]])]
  }

  /**
   * The batch has one record per key, in key order; each is the template with
   * the key as `url` and the key's value, so all share its uuid, timestamp and
   * step.
   */
  lemma {:induction false} BatchShape(t: Record, ks: seq<Metric>, m: map<Metric, real>)
    requires forall i :: 0 <= i < |ks| ==> ks[i] in m
    ensures |BatchOf(t, ks, m)| == |ks|
    ensures forall i :: 0 <= i < |ks| ==> BatchOf(t, ks, m)[i] == t.(url := ks[i].Key(), value := m[ks[i]])
  {
    if ks != [] {
      var front := ks[..|ks| - 1];
      BatchShape(t, front, m);
      forall i | 0 <= i < |ks| - 1 ensures BatchOf(t, ks, m)[i] == t.(url := ks[i].Key(), value := m[ks[i]]) {
        assert front[i] == ks[i];
      }
    }
  }

  // ---------------------------------------------------------------------------
  // Timing of the collect loop
  // ---------------------------------------------------------------------------

  /** Rotation is due once the epoch token is `aliveTime` minutes old. */
  predicate RotationDue(now: int, timecode: int, aliveTime: int)
  {
    now - timecode >= 60 * aliveTime
  }

  /** The pause after an update: never negative, and none at all when the update overran. */
  function SleepFor(nextUpdate: real, now: real): (d: real)
    ensures 0.0 <= d
    ensures now <= nextUpdate ==> now + d == nextUpdate
    ensures nextUpdate < now ==> d == 0.0
  {
    if nextUpdate - now > 0.0 then nextUpdate - now else 0.0
  }

  // ---------------------------------------------------------------------------
  // The sampler handle
  // ---------------------------------------------------------------------------

  /**
   * A sampler process, described by the arguments `run_powermetrics_process`
   * receives (epoch token, nice level, interval text) and whether it still runs.
   */
  datatype Sampler = Sampler(timecode: string, nice: int, interval: string, running: bool)
  {
    /** The argument vector the process is started with. */
    function ArgvOf(): seq<string>
    {
      Argv(timecode, nice, interval)
    }

    /** The file the process writes its readings to. */
    function Output(): string
    {
      OutputPath(timecode)
    }
  }

  /** What happened to sampler processes, in order. */
  datatype SamplerEvent = Started(output: string) | Terminated(output: string)

  /** The process `start_powermetrics_process` launches for an epoch token. */
  function Launch(timecode: int, intervalText: string): Sampler
  {
    Sampler(IntString(timecode), DefaultNice, intervalText, true)
  }

  /**
   * The launched process runs `sudo nice -n 10 powermetrics` on the three
   * samplers, in plist format, writing to the prefix followed by the token.
   */
  lemma LaunchCommand(timecode: int, intervalText: string)
    requires ' ' !in intervalText
    ensures Launch(timecode, intervalText).ArgvOf()
         == [ "sudo", "nice", "-n", "10", "powermetrics",
              "--samplers", "cpu_power,gpu_power,thermal", "-o",
              OutputPrefix + IntString(timecode), "-f", "plist", "-i", intervalText ]
    ensures Launch(timecode, intervalText).Output() == OutputPrefix + IntString(timecode)
  {
    var token := IntString(timecode);
    assert ' ' !in token;
    ArgvTokens(token, DefaultNice, intervalText);
    assert IntString(DefaultNice) == "10" by {
      assert DecimalString(10) == "10";
    }
  }

  /** One iteration of the collect loop: the clock readings and inputs it sees. */
  datatype Tick = Tick(
    now: int,                      // wall clock, whole seconds, at the top of the iteration
    started: real,                 // monotonic clock before the update
    polls: seq<Option<Sample>>,    // successive reads of the sampler output (None: not ready)
    ram: Ram,
    uuid: string,
    wallClock: real,               // wall clock, seconds, when the batch is built
    ip: string,
    finished: real)                // monotonic clock after the update

  class PrometheusExporter {
    const hostname: string
    const interval: real
    /** `str(interval)` as handed to the sampler. */
    const intervalText: string
    const postUrl: Option<string>
    const aliveTime: int

    var timecode: int
    var sampler: Option<Sampler>
    var cpuPeak: real
    var gpuPeak: real
    var cpuWin: seq<real>
    var gpuWin: seq<real>
    /** `metrics_dict`. */
    var metrics: Dict<Metric>
    /** The value each gauge shows for this host. */
    var gauges: map<Metric, real>

    /** Every instant power computed so far. */
    ghost var cpuPowers: seq<real>
    ghost var gpuPowers: seq<real>
    ghost var events: seq<SamplerEvent>

    /** The peaks and windows are those of the power histories. */
    ghost predicate PowerState()
      reads this`cpuPeak, this`gpuPeak, this`cpuWin, this`gpuWin, this`cpuPowers, this`gpuPowers
    {
      interval != 0.0 && ' ' !in intervalText
      && |cpuPowers| == |gpuPowers|
      && Follows(cpuPeak, cpuWin, cpuPowers) && Follows(gpuPeak, gpuWin, gpuPowers)
    }

    /** The derived power state holds, and the snapshot is complete once an update has run. */
    ghost predicate Derived()
      reads this`cpuPeak, this`gpuPeak, this`cpuWin, this`gpuWin, this`cpuPowers, this`gpuPowers, this`metrics
    {
      PowerState()
      && (if |cpuPowers| == 0 then metrics == Dict([], map[]) else (metrics.keys == MetricOrder && forall m :: m in metrics.values))
    }

    /** The derived state holds, and the sampler handle belongs to the current epoch token. */
    ghost predicate Valid()
      reads this`cpuPeak, this`gpuPeak, this`cpuWin, this`gpuWin, this`cpuPowers, this`gpuPowers, this`metrics,
            this`sampler, this`timecode
    {
      Derived() && SamplerState()
    }

    /** The sampler handle, if any, was launched for the current epoch token. */
    ghost predicate SamplerState()
      reads this`sampler, this`timecode
    {
      sampler.Some? ==> sampler.value.(running := true) == Launch(timecode, intervalText)
    }

    /** An empty hostname falls back to the machine's address `ip`. */
    constructor (hostname: string, ip: string, interval: real, intervalText: string, timecode: int,
                 postUrl: Option<string>, aliveTime: int)
      requires interval != 0.0 && ' ' !in intervalText
      ensures Valid()
      ensures this.hostname == (if hostname == "" then ip else hostname) && this.interval == interval
      ensures this.intervalText == intervalText && this.timecode == timecode
      ensures this.postUrl == postUrl && this.aliveTime == aliveTime
      ensures sampler == None && events == []
      ensures cpuPeak == 0.0 && gpuPeak == 0.0 && cpuWin == [] && gpuWin == []
      ensures metrics == Dict([], map[]) && cpuPowers == [] && gpuPowers == []
    {
      this.hostname := if hostname == "" then ip else hostname;
      this.interval := interval;
      this.intervalText := intervalText;
      this.timecode := timecode;
      this.postUrl := postUrl;
      this.aliveTime := aliveTime;
      sampler := None;
      cpuPeak := 0.0;
      gpuPeak := 0.0;
      cpuWin := [];
      gpuWin := [];
      metrics := Dict([], map[]);
      gauges := map[];
      cpuPowers := [];
      gpuPowers := [];
      events := [];
    }

    /**
     * `start_powermetrics_process`: every stale output file is removed, then
     * a sampler writing to the current epoch's file is launched.
     */
    method StartSampler(files: set<string>) returns (remaining: set<string>)
      requires Derived()
      modifies this`sampler, this`events
      ensures Valid()
      ensures sampler == Some(Launch(timecode, intervalText))
      ensures events == old(events) + [Started(OutputPath(IntString(timecode)))]
      ensures remaining == RemoveStale(files)
    {
      remaining := RemoveStale(files);
      sampler := Some(Launch(timecode, intervalText));
      events := events + [Started(sampler.value.Output())];
    }

    /** `terminate_powermetrics_process`: the current handle is stopped. */
    method TerminateSampler()
      requires sampler.Some?
      modifies this`sampler, this`events
      ensures sampler == Some(old(sampler).value.(running := false))
      ensures events == old(events) + [Terminated(old(sampler).value.Output())]
    {
      events := events + [Terminated(sampler.value.Output())];
      sampler := Some(sampler.value.(running := false));
    }

    /**
     * The rotation check at the top of each collect iteration: when due, the
     * token becomes the current time and the old sampler is stopped before the
     * new one starts. Peaks, windows, the snapshot and the gauges are outside
     * the frame and so stay as they were.
     */
    method MaybeRotate(now: int, files: set<string>) returns (rotated: bool, remaining: set<string>)
      requires Valid() && sampler.Some?
      modifies this`timecode, this`sampler, this`events
      ensures Valid() && sampler.Some?
      ensures rotated == RotationDue(now, old(timecode), aliveTime)
      ensures rotated ==> timecode == now && sampler == Some(Launch(now, intervalText))
                          && events == old(events) + [Terminated(old(sampler).value.Output()), Started(OutputPath(IntString(now)))]
                          && remaining == RemoveStale(files)
      ensures !rotated ==> timecode == old(timecode) && sampler == old(sampler)
                           && events == old(events) && remaining == files
    {
      rotated := now - timecode >= 60 * aliveTime;
      remaining := files;
      if rotated {
        timecode := now;
        TerminateSampler();
        remaining := StartSampler(files);
      }
    }

    /**
     * `get_reading`: poll the sampler output until a reading is ready. The
     * polls are given as a finite sequence; when none of them is ready the
     * method reports that the exporter would still be waiting.
     */
    method GetReading(polls: seq<Option<Sample>>) returns (ready: Option<Sample>, waits: nat)
      ensures waits <= |polls|
      ensures forall j :: 0 <= j < waits ==> polls[j].None?
      ensures ready.Some? <==> waits < |polls|
      ensures ready.Some? ==> polls[waits] == ready
    {
      waits := 0;
      ready := None;
      while waits < |polls| && polls[waits].None?
        invariant waits <= |polls|
        invariant forall j :: 0 <= j < waits ==> polls[j].None?
      {
        waits := waits + 1;
      }
      if waits < |polls| {
        ready := polls[waits];
      }
    }

    /**
     * `post_result`: one record per snapshot entry, in dictionary order, all
     * sharing one uuid, one millisecond timestamp and the whole-second step.
     */
    method PostResult(uuid: string, wallClock: real, ip: string) returns (batch: seq<Record>)
      requires forall i :: 0 <= i < |metrics.keys| ==> metrics.keys[i] in metrics.values
      ensures batch == BatchOf(Template(ip, uuid, TruncToInt(wallClock * 1000.0), TruncToInt(interval)),
                               metrics.keys, metrics.values)
    {
      var t := Template(ip, uuid, TruncToInt(wallClock * 1000.0), TruncToInt(interval));
      var ks := metrics.keys;
      batch := [];
      for i := 0 to |ks|
        invariant batch == BatchOf(t, ks[..i], metrics.values)
      {
        assert ks[..i + 1][..i] == ks[..i];
        batch := batch + [t.(url := ks[i].Key(), value := metrics.values[ks[i]])];
      }
      assert ks[..|ks|] == ks;
    }

    /** The gauge loop of `update_host`: each gauge in turn is set to its value. */
    method PublishGauges(vs: seq<real>)
      requires |vs| == |MetricOrder|
      modifies this`gauges
      ensures gauges == PublishAll(old(gauges), MetricOrder, vs)
    {
      for i := 0 to |MetricOrder|
        invariant gauges == PublishAll(old(gauges), MetricOrder[..i], vs[..i])
      {
        assert MetricOrder[..i + 1][..i] == MetricOrder[..i];
        assert vs[..i + 1][..i] == vs[..i];
        gauges := gauges[MetricOrder[i] := vs[i]];
      }
      assert MetricOrder[..|MetricOrder|] == MetricOrder && vs[..|vs|] == vs;
    }

    /**
     * The power part of `update_host`: each instant power is the energy over
     * the interval, the peak is raised when exceeded, the power joins the
     * window and the window is averaged.
     */
    method AdvancePowers(s: Sample) returns (cpuAvg: real, gpuAvg: real)
      requires PowerState()
      modifies this`cpuPeak, this`gpuPeak, this`cpuWin, this`gpuWin, this`cpuPowers, this`gpuPowers
      ensures PowerState()
      ensures cpuPowers == old(cpuPowers) + [PowerOf(s.cpuW, interval)]
      ensures gpuPowers == old(gpuPowers) + [PowerOf(s.gpuW, interval)]
      ensures cpuPeak == RaisePeak(old(cpuPeak), PowerOf(s.cpuW, interval))
      ensures gpuPeak == RaisePeak(old(gpuPeak), PowerOf(s.gpuW, interval))
      ensures cpuWin == Push(old(cpuWin), PowerOf(s.cpuW, interval))
      ensures gpuWin == Push(old(gpuWin), PowerOf(s.gpuW, interval))
      ensures cpuAvg == Avg(cpuWin) && gpuAvg == Avg(gpuWin)
    {
      var cpuPower := PowerOf(s.cpuW, interval);
      cpuPeak, cpuWin, cpuAvg := AdvanceDevice(cpuPeak, cpuWin, cpuPowers, cpuPower);
      cpuPowers := cpuPowers + [cpuPower];

      var gpuPower := PowerOf(s.gpuW, interval);
      gpuPeak, gpuWin, gpuAvg := AdvanceDevice(gpuPeak, gpuWin, gpuPowers, gpuPower);
      gpuPowers := gpuPowers + [gpuPower];
    }

    /**
     * The publishing part of `update_host`: every gauge and every snapshot
     * entry receives this update's value.
     */
    method Publish(r: Reading)
      requires r.interval != 0.0
      requires metrics == Dict([], map[]) || (metrics.keys == MetricOrder && forall m :: m in metrics.values)
      modifies this`metrics, this`gauges
      ensures metrics.keys == MetricOrder && forall m :: m in metrics.values && m in gauges
      ensures forall m :: gauges[m] == metrics.values[m] == MetricValue(m, r)
    {
      var vs := Values(MetricOrder, r);
      PublishGauges(vs);
      GaugesSnapshot(old(gauges), r, vs);
      if metrics != Dict([], map[]) {
        CompleteValid(metrics);
      }
      MetricSnapshot(metrics, r, vs);
      metrics := AssignAll(metrics, MetricOrder, vs);
    }

    /**
     * The update part of `update_host`: the powers advance and the 20 values
     * of the resulting reading are published. With the histories extended,
     * `Valid` fixes the new peaks and windows.
     */
    method Refresh(s: Sample, ram: Ram) returns (reading: Reading)
      requires Valid()
      modifies this`cpuPeak, this`gpuPeak, this`cpuWin, this`gpuWin, this`metrics, this`gauges,
               this`cpuPowers, this`gpuPowers
      ensures Valid()
      ensures cpuPowers == old(cpuPowers) + [PowerOf(s.cpuW, interval)]
      ensures gpuPowers == old(gpuPowers) + [PowerOf(s.gpuW, interval)]
      ensures reading == Reading(s, ram, interval, PowerOf(s.cpuW, interval), cpuPeak, Avg(cpuWin),
                                 PowerOf(s.gpuW, interval), gpuPeak, Avg(gpuWin))
      ensures metrics.keys == MetricOrder && forall m :: m in metrics.values && m in gauges
      ensures forall m :: gauges[m] == metrics.values[m] == MetricValue(m, reading)
    {
      var cpuAvg, gpuAvg := AdvancePowers(s);
      reading := Reading(s, ram, interval, PowerOf(s.cpuW, interval), cpuPeak, cpuAvg,
                         PowerOf(s.gpuW, interval), gpuPeak, gpuAvg);
      assert PowerState();
      Publish(reading);
    }

    /**
     * `update_host` on a ready reading: the update is published, and the
     * batch is built when a push address is configured.
     */
    method UpdateHost(s: Sample, ram: Ram, uuid: string, wallClock: real, ip: string)
      returns (posted: Option<seq<Record>>)
      requires Valid()
      modifies this`cpuPeak, this`gpuPeak, this`cpuWin, this`gpuWin, this`metrics, this`gauges,
               this`cpuPowers, this`gpuPowers
      ensures Valid()
      ensures cpuPowers == old(cpuPowers) + [PowerOf(s.cpuW, interval)]
      ensures gpuPowers == old(gpuPowers) + [PowerOf(s.gpuW, interval)]
      ensures metrics.keys == MetricOrder && forall m :: m in metrics.values && m in gauges
      ensures forall m :: gauges[m] == metrics.values[m]
                          == MetricValue(m, Reading(s, ram, interval, PowerOf(s.cpuW, interval), cpuPeak, Avg(cpuWin),
                                                    PowerOf(s.gpuW, interval), gpuPeak, Avg(gpuWin)))
      ensures postUrl.None? ==> posted.None?
      ensures postUrl.Some? ==> posted == Some(BatchOf(Template(ip, uuid, TruncToInt(wallClock * 1000.0), TruncToInt(interval)),
                                                       metrics.keys, metrics.values))
    {
      var reading := Refresh(s, ram);
      if postUrl.Some? {
        var batch := PostResult(uuid, wallClock, ip);
        posted := Some(batch);
      } else {
        posted := None;
      }
    }

    /**
     * One iteration of `collect`: rotate when due, take the next update time,
     * wait for a reading, update, and compute the pause.
     */
    method Iterate(t: Tick, files: set<string>)
      returns (updated: bool, sleep: real, posted: Option<seq<Record>>, remaining: set<string>)
      requires Valid() && sampler.Some?
      modifies this
      ensures Valid() && sampler.Some?
      ensures updated <==> exists j :: 0 <= j < |t.polls| && t.polls[j].Some?
      ensures updated ==> sleep == SleepFor(t.started + interval, t.finished)
                          && |cpuPowers| == |old(cpuPowers)| + 1 && old(cpuPowers) <= cpuPowers
                          && |gpuPowers| == |old(gpuPowers)| + 1 && old(gpuPowers) <= gpuPowers
      ensures !updated ==> cpuPowers == old(cpuPowers) && gpuPowers == old(gpuPowers)
      ensures posted.Some? <==> updated && postUrl.Some?
      ensures timecode == if RotationDue(t.now, old(timecode), aliveTime) then t.now else old(timecode)
      ensures remaining == if RotationDue(t.now, old(timecode), aliveTime) then RemoveStale(files) else files
      ensures old(events) <= events
    {
      var rotated;
      rotated, remaining := MaybeRotate(t.now, files);
      var nextUpdate := t.started + interval;
      var ready, waits := GetReading(t.polls);
      updated := ready.Some?;
      sleep := 0.0;
      posted := None;
      if updated {
        posted := UpdateTick(ready.value, t);
        sleep := SleepFor(nextUpdate, t.finished);
      }
    }

    /**
     * `update_host` with the inputs an iteration supplies: each history grows
     * by one power, the snapshot and the gauges take the new reading, and the
     * batch is built exactly when a push address is configured.
     */
    method UpdateTick(s: Sample, t: Tick) returns (posted: Option<seq<Record>>)
      requires Valid()
      modifies this`cpuPeak, this`gpuPeak, this`cpuWin, this`gpuWin, this`metrics, this`gauges,
               this`cpuPowers, this`gpuPowers
      ensures Valid()
      ensures cpuPowers == old(cpuPowers) + [PowerOf(s.cpuW, interval)]
      ensures gpuPowers == old(gpuPowers) + [PowerOf(s.gpuW, interval)]
      ensures metrics.keys == MetricOrder && forall m :: m in metrics.values && m in gauges
      ensures forall m :: gauges[m] == metrics.values[m]
                          == MetricValue(m, Reading(s, t.ram, interval, PowerOf(s.cpuW, interval), cpuPeak, Avg(cpuWin),
                                                    PowerOf(s.gpuW, interval), gpuPeak, Avg(gpuWin)))
      ensures postUrl.None? ==> posted.None?
      ensures postUrl.Some? ==> posted == Some(BatchOf(Template(t.ip, t.uuid, TruncToInt(t.wallClock * 1000.0), TruncToInt(interval)),
                                                       metrics.keys, metrics.values))
    {
      posted := UpdateHost(s, t.ram, t.uuid, t.wallClock, t.ip);
    }

    /**
     * `collect`, run over a finite sequence of iterations: rotate when due,
     * take the next update time, wait for a reading, update, then sleep. The
     * loop stops early where the source would wait for a reading forever.
     */
    method Collect(ticks: seq<Tick>, files: set<string>)
      returns (sleeps: seq<real>, posts: seq<Option<seq<Record>>>, remaining: set<string>)
      requires Valid() && sampler.Some?
      modifies this
      ensures Valid() && sampler.Some?
      ensures |sleeps| <= |ticks| && |posts| == |sleeps|
      ensures forall i :: 0 <= i < |sleeps| ==>
                sleeps[i] == SleepFor(ticks[i].started + interval, ticks[i].finished)
      ensures |sleeps| < |ticks| ==> forall j :: 0 <= j < |ticks[|sleeps|].polls| ==> ticks[|sleeps|].polls[j].None?
      ensures forall i :: 0 <= i < |posts| ==> (posts[i].Some? <==> postUrl.Some?)
      ensures |cpuPowers| == |old(cpuPowers)| + |sleeps| && old(cpuPowers) <= cpuPowers
      ensures old(cpuPeak) <= cpuPeak && old(gpuPeak) <= gpuPeak
      ensures old(events) <= events
    {
      sleeps, posts, remaining := [], [], files;
      var n := 0;
      while n < |ticks|
        invariant n <= |ticks| && |sleeps| == n && |posts| == n
        invariant Valid() && sampler.Some?
        invariant forall i :: 0 <= i < n ==> sleeps[i] == SleepFor(ticks[i].started + interval, ticks[i].finished)
        invariant forall i :: 0 <= i < n ==> (posts[i].Some? <==> postUrl.Some?)
        invariant |cpuPowers| == |old(cpuPowers)| + n && old(cpuPowers) <= cpuPowers
        invariant |gpuPowers| == |old(gpuPowers)| + n && old(gpuPowers) <= gpuPowers
        invariant old(events) <= events
      {
        var updated, sleep, posted;
        updated, sleep, posted, remaining := Iterate(ticks[n], remaining);
        if !updated {
          break;
        }
        sleeps := sleeps + [sleep];
        posts := posts + [posted];
        n := n + 1;
      }
      PeakMonotone(old(cpuPowers), cpuPowers);
      PeakMonotone(old(gpuPowers), gpuPowers);
    }
  }
}
