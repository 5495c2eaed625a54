/**
 * The string and dictionary logic of the exporter's utility functions: the
 * sampler's command line and output path, the cleanup of stale output files,
 * the extraction of `key: value` fields from `sysctl` output, and the static
 * per-chip power and bandwidth table.
 */
module Utils {
  import opened Wrappers
  import opened Text

  // ---------------------------------------------------------------------------
  // The sampler process: command line, output path, stale-file cleanup
  // ---------------------------------------------------------------------------

  /** Every output file of the sampler starts with this path. */
  const OutputPrefix := "/tmp/asitop_exporter_powermetrics"

  /** The nice level `run_powermetrics_process` uses unless told otherwise. */
  const DefaultNice := 10

  /** The sampler's output file for one epoch token. */
  function OutputPath(timecode: string): (path: string)
  {
    OutputPrefix + timecode
  }

  /** The command string `run_powermetrics_process` joins with single spaces. */
  function CommandLine(timecode: string, nice: int, interval: string): string
  {
    Join([ "sudo nice -n", IntString(nice), "powermetrics",
           "--samplers cpu_power,gpu_power,thermal", "-o", OutputPath(timecode),
           "-f plist", "-i", interval ], ' ')
  }

  /** The argument vector handed to the process: the command string split on spaces. */
  function Argv(timecode: string, nice: int, interval: string): seq<string>
  {
    Split(CommandLine(timecode, nice, interval), ' ')
  }

  /**
   * The process is started with exactly these tokens, in this order, and the
   * output path is the prefix followed by the epoch token.
   */
  lemma ArgvTokens(timecode: string, nice: int, interval: string)
    requires ' ' !in timecode && ' ' !in interval
    ensures Argv(timecode, nice, interval)
         == [ "sudo", "nice", "-n", IntString(nice), "powermetrics",
              "--samplers", "cpu_power,gpu_power,thermal", "-o",
              OutputPrefix + timecode, "-f", "plist", "-i", interval ]
  {
    SplitSudo();
    SplitOptionPairs();
    SplitSingleWords();
    SplitVariableParts(timecode, nice, interval);
    SplitNine("sudo nice -n", IntString(nice), "powermetrics",
              "--samplers cpu_power,gpu_power,thermal", "-o", OutputPath(timecode),
              "-f plist", "-i", interval,
              ["sudo", "nice", "-n"], [IntString(nice)], ["powermetrics"],
              ["--samplers", "cpu_power,gpu_power,thermal"], ["-o"], [OutputPath(timecode)],
              ["-f", "plist"], ["-i"], [interval]);
    ArgvWords("sudo", "nice", "-n", IntString(nice), "powermetrics",
              "--samplers", "cpu_power,gpu_power,thermal", "-o",
              OutputPath(timecode), "-f", "plist", "-i", interval);
  }

  /** Splitting a nine-part command string, one part at a time. */
  lemma SplitNine(p0: string, p1: string, p2: string, p3: string, p4: string,
                  p5: string, p6: string, p7: string, p8: string,
                  w0: seq<string>, w1: seq<string>, w2: seq<string>, w3: seq<string>,
                  w4: seq<string>, w5: seq<string>, w6: seq<string>, w7: seq<string>,
                  w8: seq<string>)
    requires Split(p0, ' ') == w0 && Split(p1, ' ') == w1 && Split(p2, ' ') == w2
    requires Split(p3, ' ') == w3 && Split(p4, ' ') == w4 && Split(p5, ' ') == w5
    requires Split(p6, ' ') == w6 && Split(p7, ' ') == w7 && Split(p8, ' ') == w8
    ensures Split(Join([p0, p1, p2, p3, p4, p5, p6, p7, p8], ' '), ' ')
         == w0 + (w1 + (w2 + (w3 + (w4 + (w5 + (w6 + (w7 + w8)))))))
  {
    var r8 := [p8];
    assert Split(Join(r8, ' '), ' ') == w8;
    var v8 := w8;
    JoinStep(p7, r8, w7, v8);
    var r7 := [p7] + r8;
    var v7 := w7 + v8;
    JoinStep(p6, r7, w6, v7);
    var r6 := [p6] + r7;
    var v6 := w6 + v7;
    JoinStep(p5, r6, w5, v6);
    var r5 := [p5] + r6;
    var v5 := w5 + v6;
    JoinStep(p4, r5, w4, v5);
    var r4 := [p4] + r5;
    var v4 := w4 + v5;
    JoinStep(p3, r4, w3, v4);
    var r3 := [p3] + r4;
    var v3 := w3 + v4;
    JoinStep(p2, r3, w2, v3);
    var r2 := [p2] + r3;
    var v2 := w2 + v3;
    JoinStep(p1, r2, w1, v2);
    var r1 := [p1] + r2;
    var v1 := w1 + v2;
    JoinStep(p0, r1, w0, v1);
    var r0 := [p0] + r1;
    var v0 := w0 + v1;
    NestedDisplay(p0, p1, p2, p3, p4, p5, p6, p7, p8);
  }

  lemma JoinStep(a: string, rest: seq<string>, wa: seq<string>, wr: seq<string>)
    requires |rest| >= 1
    requires Split(a, ' ') == wa && Split(Join(rest, ' '), ' ') == wr
    ensures Split(Join([a] + rest, ' '), ' ') == wa + wr
  {
    assert ([a] + rest)[1..] == rest;
    SplitAppend(a, ' ', Join(rest, ' '));
  }

  lemma NestedDisplay<T>(p0: T, p1: T, p2: T, p3: T, p4: T, p5: T, p6: T, p7: T, p8: T)
    ensures [p0] + ([p1] + ([p2] + ([p3] + ([p4] + ([p5] + ([p6] + ([p7] + [p8])))))))
         == [p0, p1, p2, p3, p4, p5, p6, p7, p8]
  {
  }

  lemma ArgvWords<T>(a: T, b: T, c: T, d: T, e: T, f: T, g: T, h: T, i: T, j: T, k: T, l: T, m: T)
    ensures [a, b, c] + ([d] + ([e] + ([f, g] + ([h] + ([i] + ([j, k] + ([l] + [m])))))))
         == [a, b, c, d, e, f, g, h, i, j, k, l, m]
  {
  }

  // The three command-line pieces that hold spaces split into their words.

  lemma SplitTwoWords(a: string, b: string)
    requires ' ' !in a && ' ' !in b
    ensures Split(a + [' '] + b, ' ') == [a, b]
  {
    SplitAppend(a, ' ', b);
    SplitNoSep(a, ' ');
    SplitNoSep(b, ' ');
  }

  lemma SplitThreeWords(a: string, b: string, c: string)
    requires ' ' !in a && ' ' !in b && ' ' !in c
    ensures Split(a + [' '] + (b + [' '] + c), ' ') == [a, b, c]
  {
    SplitAppend(a, ' ', b + [' '] + c);
    SplitNoSep(a, ' ');
    SplitTwoWords(b, c);
  }

  // The fixed parts of the command string split into these words.

  lemma SplitSudo()
    ensures Split("sudo nice -n", ' ') == ["sudo", "nice", "-n"]
  {
    assert "sudo nice -n" == "sudo" + [' '] + ("nice" + [' '] + "-n");
    SplitThreeWords("sudo", "nice", "-n");
  }

  lemma SplitOptionPairs()
    ensures Split("-f plist", ' ') == ["-f", "plist"]
    ensures Split("--samplers cpu_power,gpu_power,thermal", ' ') == ["--samplers", "cpu_power,gpu_power,thermal"]
  {
    assert "-f plist" == "-f" + [' '] + "plist";
    assert "--samplers cpu_power,gpu_power,thermal" == "--samplers" + [' '] + "cpu_power,gpu_power,thermal";
    SplitTwoWords("-f", "plist");
    SplitTwoWords("--samplers", "cpu_power,gpu_power,thermal");
  }

  lemma SplitSingleWords()
    ensures Split("powermetrics", ' ') == ["powermetrics"]
    ensures Split("-o", ' ') == ["-o"]
    ensures Split("-i", ' ') == ["-i"]
  {
    SplitNoSep("powermetrics", ' ');
    SplitNoSep("-o", ' ');
    SplitNoSep("-i", ' ');
  }

  // The parts that come from the caller are single words when they hold no space.
  lemma SplitVariableParts(timecode: string, nice: int, interval: string)
    requires ' ' !in timecode && ' ' !in interval
    ensures Split(IntString(nice), ' ') == [IntString(nice)]
    ensures Split(OutputPath(timecode), ' ') == [OutputPath(timecode)]
    ensures Split(interval, ' ') == [interval]
  {
    SplitNoSep(IntString(nice), ' ');
    assert ' ' !in OutputPrefix;
    SplitNoSep(OutputPath(timecode), ' ');
    SplitNoSep(interval, ' ');
  }

  /** A path that `glob.glob("/tmp/asitop_exporter_powermetrics*")` lists. */
  predicate IsStaleOutput(path: string)
  {
    OutputPrefix <= path && '/' !in path[|OutputPrefix|..]
  }

  /** The files left after every stale sampler output has been removed. */
  function RemoveStale(files: set<string>): (r: set<string>)
  {
    set f | f in files && !IsStaleOutput(f)
  }

  /**
   * Cleanup only removes files, keeps every file outside the output prefix,
   * and removes the file the new sampler will write, so that no leftover
   * data of an earlier run with the same token can be read; a second cleanup
   * finds nothing more to remove.
   */
  lemma RemoveStaleFreshOutput(files: set<string>, timecode: string)
    requires '/' !in timecode
    ensures RemoveStale(files) <= files
    ensures forall f :: f in files && !(OutputPrefix <= f) ==> f in RemoveStale(files)
    ensures OutputPath(timecode) !in RemoveStale(files)
    ensures RemoveStale(RemoveStale(files)) == RemoveStale(files)
  {
    assert OutputPath(timecode)[|OutputPrefix|..] == timecode;
  }

  // ---------------------------------------------------------------------------
  // `key: value` extraction from sysctl output
  // ---------------------------------------------------------------------------

  datatype ParseError =
    | MissingValue(line: string)   // `l.split(":")[1]` raised IndexError
    | BadNumber(text: string)      // `int(...)` raised ValueError
    | MissingField(field: string)  // a dictionary lookup raised KeyError

  /** `l.split(":")[1].strip()`, or None where the index is out of range. */
  function FieldValue(line: string): (v: Option<string>)
    ensures v.Some? <==> ':' in line
    ensures v.Some? ==> exists i: nat :: FirstColonAt(line, i) && v.value == Strip(Split(line[i + 1..], ':')[0])
  {
    var parts := Split(line, ':');
    SplitNoColon(line);
    SecondPiece(line);
    if |parts| < 2 then None else Some(Strip(parts[1]))
  }

  lemma SplitNoColon(line: string)
    ensures |Split(line, ':')| < 2 <==> ':' !in line
  {
    if ':' !in line {
      SplitNoSep(line, ':');
    } else {
      var i :| 0 <= i < |line| && line[i] == ':';
      assert line == line[..i] + [':'] + line[i + 1..];
      SplitAppend(line[..i], ':', line[i + 1..]);
    }
  }

  /** The first colon of `line` is at `i`. */
  predicate FirstColonAt(line: string, i: nat)
  {
    i < |line| && line[i] == ':' && ':' !in line[..i]
  }

  /** A line with a colon has a first one, and its second piece is what follows that colon up to the next. */
  lemma SecondPiece(line: string)
    ensures ':' in line ==> |Split(line, ':')| >= 2
    ensures ':' in line ==> exists i: nat :: FirstColonAt(line, i) && |Split(line, ':')| >= 2
                                            && Split(line, ':')[1] == Split(line[i + 1..], ':')[0]
  {
    if ':' in line {
      SplitNoColon(line);
      FirstColon(line);
      var i: nat :| FirstColonAt(line, i);
      assert line == line[..i] + [':'] + line[i + 1..];
      SplitAppend(line[..i], ':', line[i + 1..]);
      SplitNoSep(line[..i], ':');
    }
  }

  lemma {:induction false} FirstColon(line: string)
    requires ':' in line
    ensures exists i: nat :: FirstColonAt(line, i)
  {
    if line[0] == ':' {
      assert FirstColonAt(line, 0);
    } else {
      FirstColon(line[1..]);
      var i: nat :| FirstColonAt(line[1..], i);
      assert line[..i + 1] == [line[0]] + line[1..][..i];
      assert FirstColonAt(line, i + 1);
    }
  }

  /** One step of the inner loop: field `h` tested against line `l`. */
  function Visit<V>(d: map<string, V>, l: string, h: string, conv: string -> Option<V>)
    : Result<map<string, V>, ParseError>
  {
    if !Contains(l, h) then Ok(d)
    else match FieldValue(l)
      case None => Err(MissingValue(l))
      case Some(v) =>
        match conv(v)
        case None => Err(BadNumber(v))
        case Some(x) => Ok(d[h := x])
  }

  /** The inner loop over the fields, for one line. */
  function ScanLine<V>(d: map<string, V>, l: string, fields: seq<string>, conv: string -> Option<V>)
    : Result<map<string, V>, ParseError>
  {
    if fields == [] then Ok(d)
    else match ScanLine(d, l, fields[..|fields| - 1], conv)
      case Err(e) => Err(e)
      case Ok(d') => Visit(d', l, fields[|fields| - 1], conv)
  }

  /** Both loops: every line in order, every field in order. */
  function Scan<V>(lines: seq<string>, fields: seq<string>, conv: string -> Option<V>)
    : Result<map<string, V>, ParseError>
  {
    if lines == [] then Ok(map[])
    else match Scan(lines[..|lines| - 1], fields, conv)
      case Err(e) => Err(e)
      case Ok(d) => ScanLine(d, lines[|lines| - 1], fields, conv)
  }

  /**
   * The loops of `get_cpu_info` and `get_core_counts`: split the command
   * output into lines and record, for every field a line contains, the
   * (converted) text after its first colon.
   */
  method CollectFields<V>(text: string, fields: seq<string>, conv: string -> Option<V>)
    returns (r: Result<map<string, V>, ParseError>)
    ensures r == Scan(Split(text, '\n'), fields, conv)
  {
    var lines := Split(text, '\n');
    var d: map<string, V> := map[];
    for i := 0 to |lines|
      invariant Scan(lines[..i], fields, conv) == Ok(d)
    {
      assert lines[..i + 1][..i] == lines[..i];
      var s := CollectLine(d, lines[i], fields, conv);
      if s.Err? {
        r := s;
        ScanErrExtends(lines, fields, conv, i + 1);
        return;
      }
      d := s.value;
    }
    assert lines[..|lines|] == lines;
    r := Ok(d);
  }

  /** The inner loop, for one line: each field in turn is looked for in it. */
  method CollectLine<V>(start: map<string, V>, l: string, fields: seq<string>, conv: string -> Option<V>)
    returns (r: Result<map<string, V>, ParseError>)
    ensures r == ScanLine(start, l, fields, conv)
  {
    var d := start;
    for j := 0 to |fields|
      invariant ScanLine(start, l, fields[..j], conv) == Ok(d)
    {
      assert fields[..j + 1][..j] == fields[..j];
      var h := fields[j];
      if Contains(l, h) {
        var v := FieldValue(l);
        if v.None? {
          r := Err(MissingValue(l));
          ScanLineErrExtends(start, l, fields, conv, j + 1);
          return;
        }
        var x := conv(v.value);
        if x.None? {
          r := Err(BadNumber(v.value));
          ScanLineErrExtends(start, l, fields, conv, j + 1);
          return;
        }
        d := d[h := x.value];
      }
    }
    assert fields[..|fields|] == fields;
    r := Ok(d);
  }

  lemma {:induction false} ScanLineErrExtends<V>(
    d: map<string, V>, l: string, fields: seq<string>, conv: string -> Option<V>, j: nat)
    requires j <= |fields| && ScanLine(d, l, fields[..j], conv).Err?
    ensures ScanLine(d, l, fields, conv) == ScanLine(d, l, fields[..j], conv)
    decreases |fields| - j
  {
    if j < |fields| {
      assert fields[..j + 1][..j] == fields[..j];
      ScanLineErrExtends(d, l, fields, conv, j + 1);
    } else {
      assert fields[..j] == fields;
    }
  }

  lemma {:induction false} ScanErrExtends<V>(
    lines: seq<string>, fields: seq<string>, conv: string -> Option<V>, i: nat)
    requires i <= |lines| && Scan(lines[..i], fields, conv).Err?
    ensures Scan(lines, fields, conv) == Scan(lines[..i], fields, conv)
    decreases |lines| - i
  {
    if i < |lines| {
      assert lines[..i + 1][..i] == lines[..i];
      ScanErrExtends(lines, fields, conv, i + 1);
    } else {
      assert lines[..i] == lines;
    }
  }

  /** A line's contribution to the dictionary: only fields it contains change. */
  lemma {:induction false} ScanLineEffect<V>(
    d: map<string, V>, l: string, fields: seq<string>, conv: string -> Option<V>, d': map<string, V>)
    requires ScanLine(d, l, fields, conv) == Ok(d')
    ensures forall k :: k in d' && k !in d ==> k in fields
    ensures forall k :: k in fields && Contains(l, k) ==>
              k in d' && FieldValue(l).Some? && conv(FieldValue(l).value) == Some(d'[k])
    ensures forall k :: (k !in fields || !Contains(l, k)) ==> (k in d' <==> k in d) && (k in d ==> d'[k] == d[k])
  {
    if fields != [] {
      var front := fields[..|fields| - 1];
      var h := fields[|fields| - 1];
      var mid := ScanLine(d, l, front, conv).value;
      ScanLineEffect(d, l, front, conv, mid);
      assert fields == front + [h];
      assert forall k :: k in fields <==> k in front || k == h;
      assert ScanLine(d, l, fields, conv) == Visit(mid, l, h, conv);
      if Contains(l, h) {
        assert d' == mid[h := conv(FieldValue(l).value).value];
      } else {
        assert d' == mid;
      }
    }
  }

  /** Line parsing only ever produces keys from the requested fields. */
  lemma {:induction false} ScanKeys<V>(
    lines: seq<string>, fields: seq<string>, conv: string -> Option<V>, d: map<string, V>)
    requires Scan(lines, fields, conv) == Ok(d)
    ensures forall k :: k in d ==> k in fields
  {
    if lines != [] {
      var prev := Scan(lines[..|lines| - 1], fields, conv).value;
      ScanKeys(lines[..|lines| - 1], fields, conv, prev);
      ScanLineEffect(prev, lines[|lines| - 1], fields, conv, d);
    }
  }

  /**
   * A field is present exactly when some line contains it, and its value is
   * taken from the LAST line that contains it: later lines overwrite earlier.
   */
  lemma {:induction false} ScanLastWins<V>(
    lines: seq<string>, fields: seq<string>, conv: string -> Option<V>, d: map<string, V>,
    h: string, i: nat)
    requires Scan(lines, fields, conv) == Ok(d)
    requires h in fields && i < |lines| && Contains(lines[i], h)
    requires forall j :: i < j < |lines| ==> !Contains(lines[j], h)
    ensures h in d && FieldValue(lines[i]).Some? && conv(FieldValue(lines[i]).value) == Some(d[h])
  {
    var front := lines[..|lines| - 1];
    var prev := Scan(front, fields, conv).value;
    ScanLineEffect(prev, lines[|lines| - 1], fields, conv, d);
    if i < |lines| - 1 {
      ScanLastWins(front, fields, conv, prev, h, i);
    }
  }

  /** A field that no line contains is absent. */
  lemma {:induction false} ScanAbsent<V>(
    lines: seq<string>, fields: seq<string>, conv: string -> Option<V>, d: map<string, V>, h: string)
    requires Scan(lines, fields, conv) == Ok(d)
    requires forall j :: 0 <= j < |lines| ==> !Contains(lines[j], h)
    ensures h !in d
  {
    if lines != [] {
      var front := lines[..|lines| - 1];
      var prev := Scan(front, fields, conv).value;
      ScanAbsent(front, fields, conv, prev, h);
      ScanLineEffect(prev, lines[|lines| - 1], fields, conv, d);
    }
  }

  const BrandField := "machdep.cpu.brand_string"
  const CoreCountField := "machdep.cpu.core_count"
  const PerfLevel0Field := "hw.perflevel0.logicalcpu"
  const PerfLevel1Field := "hw.perflevel1.logicalcpu"

  /** `get_cpu_info` keeps the text values. */
  function AsText(s: string): Option<string> { Some(s) }

  /** `get_cpu_info` on the output of `sysctl -a | grep machdep.cpu`. */
  method GetCpuInfo(sysctlOutput: string) returns (r: Result<map<string, string>, ParseError>)
    ensures r == Scan(Split(sysctlOutput, '\n'), [BrandField, CoreCountField], AsText)
  {
    r := CollectFields(sysctlOutput, [BrandField, CoreCountField], AsText);
  }

  /** `get_core_counts` on the output of `sysctl -a | grep hw.perflevel`; values go through `int`. */
  method GetCoreCounts(sysctlOutput: string) returns (r: Result<map<string, int>, ParseError>)
    ensures r == Scan(Split(sysctlOutput, '\n'), [PerfLevel0Field, PerfLevel1Field], ParseInt)
  {
    r := CollectFields(sysctlOutput, [PerfLevel0Field, PerfLevel1Field], ParseInt);
  }

  // ---------------------------------------------------------------------------
  // The system-on-chip description
  // ---------------------------------------------------------------------------

  /** A core count, or `"?"` where it could not be read. */
  datatype Count = Known(n: int) | Unknown

  /**
   * The efficiency and performance core counts; if either perflevel entry
   * is missing, the `except` branch sets both to `"?"`.
   */
  function CoreCountsOf(d: map<string, int>): (r: (Count, Count))
    ensures r.0.Unknown? <==> r.1.Unknown?
    ensures r.0.Unknown? <==> PerfLevel1Field !in d || PerfLevel0Field !in d
    ensures r.0.Known? ==> r.0.n == d[PerfLevel1Field] && r.1.n == d[PerfLevel0Field]
  {
    if PerfLevel1Field in d && PerfLevel0Field in d
    then (Known(d[PerfLevel1Field]), Known(d[PerfLevel0Field]))
    else (Unknown, Unknown)
  }

  datatype Limits = Limits(cpuMaxPower: int, gpuMaxPower: int, cpuMaxBw: int, gpuMaxBw: int)

  /** The TDP branch chain of `get_soc_info`: (cpu_max_power, gpu_max_power). */
  function MaxPower(name: string): (int, int)
  {
    if name == "Apple M1 Max" then (30, 60)
    else if name == "Apple M1 Pro" then (30, 30)
    else if name == "Apple M1" then (20, 20)
    else if name == "Apple M1 Ultra" then (60, 120)
    else if name == "Apple M2" then (25, 15)
    else (20, 20)
  }

  /** The bandwidth branch chain of `get_soc_info`: (cpu_max_bw, gpu_max_bw). */
  function MaxBandwidth(name: string): (int, int)
  {
    if name == "Apple M1 Max" then (250, 400)
    else if name == "Apple M1 Pro" then (200, 200)
    else if name == "Apple M1" then (70, 70)
    else if name == "Apple M1 Ultra" then (500, 800)
    else if name == "Apple M2" then (100, 100)
    else (70, 70)
  }

  /** All four limits, as `get_soc_info` leaves them after both branch chains. */
  function ChipLimits(name: string): Limits
  {
    Limits(MaxPower(name).0, MaxPower(name).1, MaxBandwidth(name).0, MaxBandwidth(name).1)
  }

  /** The chips the table knows, as a plain mapping from name to limits. */
  const KnownChips: map<string, Limits> := map[
    "Apple M1 Max" := Limits(30, 60, 250, 400),
    "Apple M1 Pro" := Limits(30, 30, 200, 200),
    "Apple M1" := Limits(20, 20, 70, 70),
    "Apple M1 Ultra" := Limits(60, 120, 500, 800),
    "Apple M2" := Limits(25, 15, 100, 100)
  ]

  /** What every other chip name gets. */
  const DefaultLimits := Limits(20, 20, 70, 70)

  /** The two branch chains agree with the table, and every other name gets the default. */
  lemma ChipLimitsTable(name: string)
    ensures name in KnownChips ==> ChipLimits(name) == KnownChips[name]
    ensures name !in KnownChips ==> ChipLimits(name) == DefaultLimits
  {
  }

  datatype SocInfo = SocInfo(
    name: string,
    coreCount: int,
    limits: Limits,
    eCoreCount: Count,
    pCoreCount: Count,
    gpuCoreCount: Count)

  /**
   * `get_soc_info`: the two sysctl outputs are parsed, the brand string and
   * core count are looked up (a missing key or a non-numeric count is an
   * error), the core counts fall back to `"?"`, and the limits come from the
   * chip table. The GPU core count (from `system_profiler`) is an input.
   */
  method GetSocInfo(cpuSysctl: string, perfSysctl: string, gpuCores: Count)
    returns (r: Result<SocInfo, ParseError>)
    ensures Scan(Split(cpuSysctl, '\n'), [BrandField, CoreCountField], AsText).Err? ==>
              r == Err(Scan(Split(cpuSysctl, '\n'), [BrandField, CoreCountField], AsText).error)
    ensures r.Ok? <==>
              && Scan(Split(cpuSysctl, '\n'), [BrandField, CoreCountField], AsText).Ok?
              && Scan(Split(perfSysctl, '\n'), [PerfLevel0Field, PerfLevel1Field], ParseInt).Ok?
              && BrandField in Scan(Split(cpuSysctl, '\n'), [BrandField, CoreCountField], AsText).value
              && CoreCountField in Scan(Split(cpuSysctl, '\n'), [BrandField, CoreCountField], AsText).value
              && ParseInt(Scan(Split(cpuSysctl, '\n'), [BrandField, CoreCountField], AsText).value[CoreCountField]).Some?
    ensures r.Ok? ==>
              var cpu := Scan(Split(cpuSysctl, '\n'), [BrandField, CoreCountField], AsText).value;
              var cores := Scan(Split(perfSysctl, '\n'), [PerfLevel0Field, PerfLevel1Field], ParseInt).value;
              && r.value.name == cpu[BrandField]
              && Some(r.value.coreCount) == ParseInt(cpu[CoreCountField])
              && r.value.limits == ChipLimits(cpu[BrandField])
              && (r.value.eCoreCount, r.value.pCoreCount) == CoreCountsOf(cores)
              && r.value.gpuCoreCount == gpuCores
  {
    var cpu := GetCpuInfo(cpuSysctl);
    if cpu.Err? {
      return Err(cpu.error);
    }
    var cores := GetCoreCounts(perfSysctl);
    if cores.Err? {
      return Err(cores.error);
    }
    var counts := CoreCountsOf(cores.value);
    if BrandField !in cpu.value {
      return Err(MissingField(BrandField));
    }
    var name := cpu.value[BrandField];
    if CoreCountField !in cpu.value {
      return Err(MissingField(CoreCountField));
    }
    var coreCount := ParseInt(cpu.value[CoreCountField]);
    if coreCount.None? {
      return Err(BadNumber(cpu.value[CoreCountField]));
    }
    r := Ok(SocInfo(name, coreCount.value, ChipLimits(name), counts.0, counts.1, gpuCores));
  }
}
