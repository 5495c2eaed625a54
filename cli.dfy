/**
 * The command-line front end: the prefix rewrite applied to each line that
 * is written to standard error, the checks on the interval argument, the
 * classification of a failed bind, and the order of the steps of `main`
 * with the exit code each path returns.
 */
module Cli {
  import opened Wrappers
  import opened Text
  import opened Utils
  import opened Exporter

  // ---------------------------------------------------------------------------
  // cprint
  // ---------------------------------------------------------------------------

  /** The prefixes `cprint` recognises, in the order it tries them. */
  const Prefixes: seq<string> := ["INFO: ", "WARNING: ", "ERROR: ", "NVML ERROR: "]

  /**
   * The text after the given prefixes have been tried in turn, as written:
   * when the current text starts with a prefix, it is replaced by that
   * prefix without its trailing whitespace, and the next prefix is tried on
   * the result.
   */
  function Rewritten(text: string, prefixes: seq<string>): string
    decreases |prefixes|
  {
    if prefixes == [] then text
    else Rewritten(if prefixes[0] <= text then Rstrip(prefixes[0]) else text, prefixes[1..])
  }

  /** `cprint`: the loop over the prefixes, returning the line it prints. */
  method Cprint(text: string) returns (printed: string)
    ensures printed == Rewritten(text, Prefixes)
  {
    printed := text;
    for i := 0 to |Prefixes|
      invariant Rewritten(printed, Prefixes[i..]) == Rewritten(text, Prefixes)
    {
      assert Prefixes[i..][1..] == Prefixes[i + 1..];
      if Prefixes[i] <= printed {
        printed := Rstrip(Prefixes[i]);
      }
    }
  }

  /** The position of the first prefix the text starts with, if any. */
  function FirstMatch(text: string, prefixes: seq<string>): (r: Option<nat>)
    ensures r.Some? ==> r.value < |prefixes| && prefixes[r.value] <= text
    ensures r.Some? ==> forall j :: 0 <= j < r.value ==> !(prefixes[j] <= text)
    ensures r.None? <==> forall j :: 0 <= j < |prefixes| ==> !(prefixes[j] <= text)
  {
    if prefixes == [] then None
    else if prefixes[0] <= text then Some(0)
    else
      match FirstMatch(text, prefixes[1..])
      case None => None
      case Some(k) => Some(k + 1)
  }

  /** Each prefix loses exactly its one trailing space. */
  lemma PrefixForms()
    ensures Rstrip(Prefixes[0]) == "INFO:"
    ensures Rstrip(Prefixes[1]) == "WARNING:"
    ensures Rstrip(Prefixes[2]) == "ERROR:"
    ensures Rstrip(Prefixes[3]) == "NVML ERROR:"
  {
    assert Rstrip("INFO:") == "INFO:";
    assert Rstrip("WARNING:") == "WARNING:";
    assert Rstrip("ERROR:") == "ERROR:";
    assert Rstrip("NVML ERROR:") == "NVML ERROR:";
  }

  /**
   * What `cprint` prints: a text starting with a recognised prefix prints as
   * that prefix without its trailing space, whatever follows it; any other
   * text prints unchanged.
   */
  lemma CprintOutcome(text: string)
    ensures FirstMatch(text, Prefixes).None? ==> Rewritten(text, Prefixes) == text
    ensures FirstMatch(text, Prefixes).Some? ==>
              Rewritten(text, Prefixes) == Rstrip(Prefixes[FirstMatch(text, Prefixes).value])
  {
    forall i | 0 <= i < |Prefixes| ensures forall j :: i < j < |Prefixes| ==> !(Prefixes[j] <= Rstrip(Prefixes[i])) {
      Settled(i);
    }
    RewrittenFirstMatch(text, Prefixes);
  }

  /** Once a prefix has been replaced by its stripped form, no later prefix matches. */
  lemma Settled(i: nat)
    requires i < |Prefixes|
    ensures forall j :: i < j < |Prefixes| ==> !(Prefixes[j] <= Rstrip(Prefixes[i]))
  {
    PrefixForms();
    assert !(Prefixes[1] <= "INFO:") && !(Prefixes[2] <= "INFO:") && !(Prefixes[3] <= "INFO:");
    assert !(Prefixes[2] <= "WARNING:") by { assert Prefixes[2][0] != "WARNING:"[0]; }
    assert !(Prefixes[3] <= "WARNING:") by { assert Prefixes[3][0] != "WARNING:"[0]; }
    assert !(Prefixes[3] <= "ERROR:");
  }

  /** No prefix matches the stripped form of an earlier one. */
  ghost predicate Settles(ps: seq<string>)
  {
    forall i, j :: 0 <= i < j < |ps| ==> !(ps[j] <= Rstrip(ps[i]))
  }

  /** For prefixes that settle, trying them all in turn amounts to rewriting by the first match. */
  lemma {:induction false} RewrittenFirstMatch(text: string, ps: seq<string>)
    requires Settles(ps)
    ensures FirstMatch(text, ps).None? ==> Rewritten(text, ps) == text
    ensures FirstMatch(text, ps).Some? ==> Rewritten(text, ps) == Rstrip(ps[FirstMatch(text, ps).value])
  {
    if ps != [] {
      var rest := ps[1..];
      if ps[0] <= text {
        SettledHead(ps);
        Untouched(Rstrip(ps[0]), rest);
      } else {
        SettlesTail(ps);
        RewrittenFirstMatch(text, rest);
        if FirstMatch(text, rest).Some? {
          assert rest[FirstMatch(text, rest).value] == ps[FirstMatch(text, rest).value + 1];
        }
      }
    }
  }

  /** No later prefix matches the stripped first one. */
  lemma SettledHead(ps: seq<string>)
    requires |ps| > 0 && Settles(ps)
    ensures forall j :: 0 <= j < |ps| - 1 ==> !(ps[1..][j] <= Rstrip(ps[0]))
  {
    forall j | 0 <= j < |ps| - 1 ensures !(ps[1..][j] <= Rstrip(ps[0])) {
      assert ps[1..][j] == ps[j + 1];
    }
  }

  /** The prefixes after the first settle too. */
  lemma SettlesTail(ps: seq<string>)
    requires |ps| > 0 && Settles(ps)
    ensures Settles(ps[1..])
  {
    var rest := ps[1..];
    forall i, j | 0 <= i < j < |rest| ensures !(rest[j] <= Rstrip(rest[i])) {
      assert rest[j] == ps[j + 1] && rest[i] == ps[i + 1];
    }
  }

  /** The first match is the matching prefix before which none matches. */
  lemma FirstMatchIs(text: string, ps: seq<string>, k: nat)
    requires k < |ps| && ps[k] <= text
    requires forall j :: 0 <= j < k ==> !(ps[j] <= text)
    ensures FirstMatch(text, ps) == Some(k)
  {
    var r := FirstMatch(text, ps);
    assert r.Some? && !(r.value < k) && !(r.value > k);
  }

  /** A text that no prefix matches is left as it is. */
  lemma {:induction false} Untouched(text: string, ps: seq<string>)
    requires forall j :: 0 <= j < |ps| ==> !(ps[j] <= text)
    ensures Rewritten(text, ps) == text
  {
    if ps != [] {
      forall j | 0 <= j < |ps| - 1 ensures !(ps[1..][j] <= text) {
        assert ps[1..][j] == ps[j + 1];
      }
      Untouched(text, ps[1..]);
    }
  }

  /** The startup banner, whose "INFO :" is not a recognised prefix. */
  function Banner(hostname: string, bindAddress: string, port: int): string
  {
    "INFO : " + "Start the exporter on " + hostname + " at " + Url(bindAddress, port) + "/metrics."
  }

  lemma NoMatchOfFour(text: string, ps: seq<string>)
    requires |ps| == 4 && !(ps[0] <= text) && !(ps[1] <= text) && !(ps[2] <= text) && !(ps[3] <= text)
    ensures FirstMatch(text, ps).None?
  {
  }

  /** A line starting with "INFO :" (a space before the colon) carries none of the prefixes. */
  lemma InfoSpaceMisses(text: string)
    requires |text| >= 5 && text[0] == 'I' && text[4] == ' '
    ensures FirstMatch(text, Prefixes).None?
  {
    assert !(Prefixes[0] <= text) by { assert Prefixes[0][4] != text[4]; }
    assert !(Prefixes[1] <= text) by { assert Prefixes[1][0] != text[0]; }
    assert !(Prefixes[2] <= text) by { assert Prefixes[2][0] != text[0]; }
    assert !(Prefixes[3] <= text) by { assert Prefixes[3][0] != text[0]; }
    NoMatchOfFour(text, Prefixes);
  }

  /** The banner is printed unchanged, and in the intended form nothing of it is highlighted. */
  lemma BannerUnchanged(hostname: string, bindAddress: string, port: int)
    ensures Rewritten(Banner(hostname, bindAddress, port), Prefixes) == Banner(hostname, bindAddress, port)
    ensures Highlight(Banner(hostname, bindAddress, port)) == Styled("", Banner(hostname, bindAddress, port))
  {
    var b := Banner(hostname, bindAddress, port);
    BannerStart(hostname, bindAddress, port);
    InfoSpaceMisses(b);
    CprintOutcome(b);
    var h := Highlight(b);
    assert h.highlighted == "" && h.highlighted + h.plain == b;
  }

  lemma BannerStart(hostname: string, bindAddress: string, port: int)
    ensures |Banner(hostname, bindAddress, port)| >= 5
    ensures Banner(hostname, bindAddress, port)[0] == 'I' && Banner(hostname, bindAddress, port)[4] == ' '
  {
    var rest := "Start the exporter on " + hostname + " at " + Url(bindAddress, port) + "/metrics.";
    assert Banner(hostname, bindAddress, port) == "INFO : " + rest;
  }

  /**
   * A line as the commented-out colouring code intends it: the recognised
   * prefix, without its trailing space, is set apart for colouring, and the
   * rest of the text follows unchanged.
   */
  datatype Styled = Styled(highlighted: string, plain: string)
  {
    /** The characters that reach the terminal, colour codes aside. */
    function Shown(): string { highlighted + plain }
  }

  /** The corrected prefix handling: the first recognised prefix is highlighted and the message is kept. */
  function Highlight(text: string): (r: Styled)
    ensures r.Shown() == text
    ensures FirstMatch(text, Prefixes).None? ==> r.highlighted == ""
    ensures FirstMatch(text, Prefixes).Some? ==> r.highlighted == Rstrip(Prefixes[FirstMatch(text, Prefixes).value])
  {
    match FirstMatch(text, Prefixes)
    case None => Styled("", text)
    case Some(i) =>
      var h := Rstrip(Prefixes[i]);
      assert h <= Prefixes[i] <= text;
      assert h + text[|h|..] == text;
      Styled(h, text[|h|..])
  }

  // ---------------------------------------------------------------------------
  // Arguments
  // ---------------------------------------------------------------------------

  /**
   * One option on the command line: not given, given and converted by its
   * type function, or given but refused by it (the `ValueError` case).
   */
  datatype Opt<T> = Default | Value(v: T) | Unconvertible

  /** The options `parse_arguments` reads; the string options cannot fail to convert. */
  datatype Args = Args(
    hostname: Option<string>,
    bindAddress: Option<string>,
    port: Opt<int>,
    interval: Opt<real>,
    postUrl: Option<string>,
    aliveTime: Opt<int>)

  datatype Options = Options(
    hostname: string,
    bindAddress: string,
    port: int,
    interval: real,
    postUrl: Option<string>,
    aliveTime: int)

  /** Why argument parsing exits with status 2. */
  datatype ArgError =
    | InvalidValue   // a type function refused its argument, `posfloat` included
    | TooShort(interval: real)

  const MinInterval: real := 0.25
  const DefaultInterval: real := 5.0
  const DefaultBindAddress := "127.0.0.1"
  const DefaultPort := 8000
  const DefaultAliveTime := 60

  /** `posfloat` after `float` has converted the text: a value that is not positive is refused. */
  function PosFloat(num: real): (r: Option<real>)
    ensures r.Some? <==> num > 0.0
    ensures r.Some? ==> r.value == num
  {
    if num <= 0.0 then None else Some(num)
  }

  function OrElse<T>(o: Opt<T>, default: T): T
  {
    if o.Value? then o.v else default
  }

  /**
   * `parse_arguments`: any refused value is an argparse error; otherwise an
   * interval under a quarter of a second is rejected as too short. The
   * hostname defaults to the machine's address `ip`.
   */
  function ParseArguments(a: Args, ip: string): (r: Result<Options, ArgError>)
  {
    var interval := match a.interval
      case Default => Some(DefaultInterval)
      case Value(v) => PosFloat(v)
      case Unconvertible => None;
    if a.port.Unconvertible? || a.aliveTime.Unconvertible? || interval.None? then Err(InvalidValue)
    else if interval.value < MinInterval then Err(TooShort(interval.value))
    else Ok(Options(
      if a.hostname.Some? then a.hostname.value else ip,
      if a.bindAddress.Some? then a.bindAddress.value else DefaultBindAddress,
      OrElse(a.port, DefaultPort),
      interval.value,
      a.postUrl,
      OrElse(a.aliveTime, DefaultAliveTime)))
  }

  /**
   * An accepted interval is at least a quarter of a second; a value that is
   * not positive is refused by `posfloat`, and a positive one under a
   * quarter by the later check. Given options are taken as they are.
   */
  lemma ParseArgumentsOutcome(a: Args, ip: string)
    ensures ParseArguments(a, ip).Ok? ==> ParseArguments(a, ip).value.interval >= MinInterval
    ensures a.interval.Value? && a.interval.v <= 0.0 ==> ParseArguments(a, ip) == Err(InvalidValue)
    ensures (a.interval.Value? && 0.0 < a.interval.v < MinInterval && !a.port.Unconvertible? && !a.aliveTime.Unconvertible?)
              ==> ParseArguments(a, ip) == Err(TooShort(a.interval.v))
    ensures ParseArguments(a, ip).Ok? <==>
              !a.port.Unconvertible? && !a.aliveTime.Unconvertible? && !a.interval.Unconvertible?
              && (a.interval.Value? ==> a.interval.v >= MinInterval)
    ensures ParseArguments(a, ip).Ok? ==>
              var o := ParseArguments(a, ip).value;
              (a.hostname.Some? ==> o.hostname == a.hostname.value)
              && (a.port.Value? ==> o.port == a.port.v)
              && (a.interval.Value? ==> o.interval == a.interval.v)
              && o.postUrl == a.postUrl
              && (a.aliveTime.Value? ==> o.aliveTime == a.aliveTime.v)
  {
  }

  /** With no options given, the documented defaults apply. */
  lemma DefaultArguments(ip: string)
    ensures ParseArguments(Args(None, None, Default, Default, None, Default), ip)
         == Ok(Options(ip, "127.0.0.1", 8000, 5.0, None, 60))
  {
  }

  // ---------------------------------------------------------------------------
  // Bind errors
  // ---------------------------------------------------------------------------

  /** The three operator messages a failed bind can produce. */
  datatype BindFailure = AddressInUse | CannotAssign | OtherFailure

  const InUsePhrase := "address already in use"
  const CannotAssignPhrase := "cannot assign requested address"

  /** The choice made on `str(ex).lower()`: the in-use test comes first. */
  function ClassifyBindError(message: string): BindFailure
  {
    var lower := ToLower(message);
    if Contains(lower, InUsePhrase) then AddressInUse
    else if Contains(lower, CannotAssignPhrase) then CannotAssign
    else OtherFailure
  }

  /** The address the server was asked to listen on, as the messages show it. */
  function Url(bindAddress: string, port: int): string
  {
    "http://" + bindAddress + ":" + IntString(port)
  }

  /** The line written to standard error for each kind of bind failure. */
  function BindMessage(f: BindFailure, message: string, bindAddress: string, port: int): string
  {
    "ERROR: " + BindAdvice(f, message, bindAddress, port)
  }

  /** What follows the error prefix: advice for the two recognised failures, the error text otherwise. */
  function BindAdvice(f: BindFailure, message: string, bindAddress: string, port: int): string
  {
    match f
    case AddressInUse =>
      "Address " + Url(bindAddress, port) + " is already in use. Please specify a different port via `--port <PORT>`."
    case CannotAssign =>
      "Cannot assign requested address at " + Url(bindAddress, port)
      + ". Please specify a different address via `--bind-address <ADDRESS>`."
    case OtherFailure => message
  }

  lemma {:induction false} ToLowerAppend(a: string, b: string)
    ensures ToLower(a + b) == ToLower(a) + ToLower(b)
  {
    var l := ToLower(a + b);
    var r := ToLower(a) + ToLower(b);
    assert |l| == |r|;
    forall i | 0 <= i < |l| ensures l[i] == r[i] {
      if i < |a| {
        assert (a + b)[i] == a[i];
      } else {
        assert (a + b)[i] == b[i - |a|];
      }
    }
  }

  /** A message mentions a phrase, in any mixture of cases, exactly when its lowered form holds the phrase at some position. */
  lemma MentionsAnywhere(pre: string, mid: string, post: string)
    ensures Contains(ToLower(pre + mid + post), ToLower(mid))
  {
    ToLowerAppend(pre + mid, post);
    ToLowerAppend(pre, mid);
    var lower := ToLower(pre + mid + post);
    assert lower == ToLower(pre) + ToLower(mid) + ToLower(post);
    assert lower[|pre|..|pre| + |mid|] == ToLower(mid);
    assert OccursAt(lower, ToLower(mid), |pre|);
    ContainsAt(lower, ToLower(mid));
  }

  /**
   * The classification, case-insensitively: a message mentioning the in-use
   * phrase gets the port message; one mentioning only the other phrase gets
   * the address message; any other message gets the generic one.
   */
  lemma ClassifyBindErrorOutcome(pre: string, mid: string, post: string)
    ensures ToLower(mid) == InUsePhrase ==> ClassifyBindError(pre + mid + post) == AddressInUse
    ensures (ToLower(mid) == CannotAssignPhrase && !Contains(ToLower(pre + mid + post), InUsePhrase))
              ==> ClassifyBindError(pre + mid + post) == CannotAssign
    ensures (!Contains(ToLower(pre + mid + post), InUsePhrase) && !Contains(ToLower(pre + mid + post), CannotAssignPhrase))
              ==> ClassifyBindError(pre + mid + post) == OtherFailure
  {
    MentionsAnywhere(pre, mid, post);
  }

  /** The classification depends on the message only up to case. */
  lemma ClassifyIgnoresCase(message: string)
    ensures ClassifyBindError(ToLower(message)) == ClassifyBindError(message)
  {
    ToLowerIdempotent(message);
  }

  // ---------------------------------------------------------------------------
  // main
  // ---------------------------------------------------------------------------

  /**
   * `main`: parse the arguments, take the epoch token from the startup time,
   * build the exporter and start its sampler, then try to bind the server
   * (`bind` is the message of the `OSError` it raised, if any). On success the
   * banner is printed and the collect loop runs over `ticks` until the user's
   * interrupt, after which the sampler is terminated. `intervalText` is what
   * `str` gives for the accepted interval. `messages` are the texts handed
   * to `cprint`, and `printed` the lines it writes for them.
   */
  method Run(a: Args, ip: string, intervalText: string, startup: real, files: set<string>,
             bind: Option<string>, ticks: seq<Tick>)
    returns (code: int, messages: seq<string>, printed: seq<string>, ghost events: seq<SamplerEvent>)
    requires ' ' !in intervalText
    ensures |printed| == |messages| && forall i :: 0 <= i < |messages| ==> printed[i] == Rewritten(messages[i], Prefixes)
    ensures code == 2 <==> ParseArguments(a, ip).Err?
    ensures code == 2 ==> messages == [] && events == []
    ensures code == 1 <==> ParseArguments(a, ip).Ok? && bind.Some?
    ensures code == 1 ==>
              var o := ParseArguments(a, ip).value;
              events == [Started(OutputPath(IntString(TruncToInt(startup))))]
              && messages == [BindMessage(ClassifyBindError(bind.value), bind.value, o.bindAddress, o.port)]
              && printed == ["ERROR:"]
    ensures code == 0 <==> ParseArguments(a, ip).Ok? && bind.None?
    ensures code == 0 ==>
              var o := ParseArguments(a, ip).value;
              |events| >= 2 && events[0] == Started(OutputPath(IntString(TruncToInt(startup))))
              && events[|events| - 1].Terminated?
              && messages == [Banner(o.hostname, o.bindAddress, o.port), "", "INFO: Interrupted by user."]
              && printed == [Banner(o.hostname, o.bindAddress, o.port), "", "INFO:"]
  {
    var parsed := ParseArguments(a, ip);
    if parsed.Err? {
      code, messages, printed, events := 2, [], [], [];
    } else {
      ParseArgumentsOutcome(a, ip);
      code, messages, printed, events := Start(parsed.value, ip, intervalText, startup, files, bind, ticks);
    }
  }

  /**
   * `main` once the arguments are accepted: the exporter and its sampler
   * start, then either the bind failure is reported, or the banner is printed
   * and the exporter collects until interrupted, prints the interrupt notice
   * and terminates its sampler.
   */
  method Start(o: Options, ip: string, intervalText: string, startup: real, files: set<string>,
               bind: Option<string>, ticks: seq<Tick>)
    returns (code: int, messages: seq<string>, printed: seq<string>, ghost events: seq<SamplerEvent>)
    requires o.interval >= MinInterval && ' ' !in intervalText
    ensures |printed| == |messages| && forall i :: 0 <= i < |messages| ==> printed[i] == Rewritten(messages[i], Prefixes)
    ensures code == 1 <==> bind.Some?
    ensures code == 1 ==>
              events == [Started(OutputPath(IntString(TruncToInt(startup))))]
              && messages == [BindMessage(ClassifyBindError(bind.value), bind.value, o.bindAddress, o.port)]
              && printed == ["ERROR:"]
    ensures code == 0 <==> bind.None?
    ensures code == 0 ==>
              |events| >= 2 && events[0] == Started(OutputPath(IntString(TruncToInt(startup))))
              && events[|events| - 1].Terminated?
              && messages == [Banner(o.hostname, o.bindAddress, o.port), "", "INFO: Interrupted by user."]
              && printed == [Banner(o.hostname, o.bindAddress, o.port), "", "INFO:"]
  {
    var exporter := new PrometheusExporter(o.hostname, ip, o.interval, intervalText, TruncToInt(startup),
                                           o.postUrl, o.aliveTime);
    var remaining := exporter.StartSampler(files);
    if bind.Some? {
      var m, p := ReportBindError(bind.value, o.bindAddress, o.port);
      messages, printed := [m], [p];
      code := 1;
    } else {
      messages, printed := Serve(exporter, o, ticks, remaining);
      code := 0;
    }
    events := exporter.events;
  }

  /** The `except OSError` branch of `main`: the classified message, through `cprint`. */
  method ReportBindError(error: string, bindAddress: string, port: int) returns (message: string, printed: string)
    ensures message == BindMessage(ClassifyBindError(error), error, bindAddress, port)
    ensures printed == Rewritten(message, Prefixes) == "ERROR:"
  {
    var f := ClassifyBindError(error);
    message := BindMessage(f, error, bindAddress, port);
    printed := Cprint(message);
    BindMessageLost(f, error, bindAddress, port);
  }

  /**
   * The serving part of `main`: the banner is printed, the collect loop runs
   * until the interrupt, which arrives after the given ticks, the interrupt
   * notice is printed, and the sampler is terminated.
   */
  method Serve(exporter: PrometheusExporter, o: Options, ticks: seq<Tick>, files: set<string>)
    returns (messages: seq<string>, printed: seq<string>)
    requires exporter.Valid() && exporter.sampler.Some?
    modifies exporter
    ensures old(exporter.events) < exporter.events
    ensures exporter.events[|exporter.events| - 1].Terminated?
    ensures messages == [Banner(o.hostname, o.bindAddress, o.port), "", "INFO: Interrupted by user."]
    ensures printed == [Banner(o.hostname, o.bindAddress, o.port), "", "INFO:"]
    ensures |printed| == |messages| && forall i :: 0 <= i < |messages| ==> printed[i] == Rewritten(messages[i], Prefixes)
  {
    var banner, p0 := Greet(o);
    var sleeps, posts, rest := exporter.Collect(ticks, files);
    var notice, shown := Interrupted();
    exporter.TerminateSampler();
    messages := [banner] + notice;
    printed := [p0] + shown;
  }

  /** The start-up banner, through `cprint`, which leaves it whole. */
  method Greet(o: Options) returns (message: string, printed: string)
    ensures message == Banner(o.hostname, o.bindAddress, o.port)
    ensures printed == Rewritten(message, Prefixes) == message
  {
    message := Banner(o.hostname, o.bindAddress, o.port);
    printed := Cprint(message);
    BannerUnchanged(o.hostname, o.bindAddress, o.port);
  }

  /** The `except KeyboardInterrupt` lines, through `cprint`: an empty line and the bare "INFO:". */
  method Interrupted() returns (messages: seq<string>, printed: seq<string>)
    ensures messages == ["", "INFO: Interrupted by user."] && printed == ["", "INFO:"]
    ensures |printed| == |messages| && forall i :: 0 <= i < |messages| ==> printed[i] == Rewritten(messages[i], Prefixes)
  {
    var p1 := Cprint("");
    EmptyLine();
    var p2 := Cprint("INFO: Interrupted by user.");
    InterruptLost();
    messages, printed := ["", "INFO: Interrupted by user."], [p1, p2];
  }

  /** `cprint()` with no text prints an empty line. */
  lemma EmptyLine()
    ensures Rewritten("", Prefixes) == ""
  {
    Untouched("", Prefixes);
  }

  // ---------------------------------------------------------------------------
  // The cprint finding
  // ---------------------------------------------------------------------------

  /**
   * As written, every bind failure prints only "ERROR:": the address, the
   * port and the hint are dropped. The intended form keeps the whole line.
   */
  lemma ThirdMatch(text: string, ps: seq<string>)
    requires |ps| >= 3 && !(ps[0] <= text) && !(ps[1] <= text) && ps[2] <= text
    ensures FirstMatch(text, ps) == Some(2)
  {
    FirstMatchIs(text, ps, 2);
  }

  lemma PrefixOfAppend(p: string, x: string)
    ensures p <= p + x
  {
    assert (p + x)[..|p|] == p;
  }

  lemma BindMessageLost(f: BindFailure, message: string, bindAddress: string, port: int)
    ensures Rewritten(BindMessage(f, message, bindAddress, port), Prefixes) == "ERROR:"
    ensures Highlight(BindMessage(f, message, bindAddress, port)).highlighted == "ERROR:"
    ensures Highlight(BindMessage(f, message, bindAddress, port)).Shown() == BindMessage(f, message, bindAddress, port)
  {
    var t := BindMessage(f, message, bindAddress, port);
    var advice := BindAdvice(f, message, bindAddress, port);
    assert t == Prefixes[2] + advice;
    PrefixOfAppend(Prefixes[2], advice);
    ErrorLine(t);
  }

  /** Any line starting with "ERROR: " is printed as "ERROR:" alone. */
  lemma ErrorLine(text: string)
    requires Prefixes[2] <= text
    ensures Rewritten(text, Prefixes) == "ERROR:"
    ensures Highlight(text).highlighted == "ERROR:"
  {
    assert !(Prefixes[0] <= text) by { assert Prefixes[0][0] != text[0]; }
    assert !(Prefixes[1] <= text) by { assert Prefixes[1][0] != text[0]; }
    ThirdMatch(text, Prefixes);
    CprintOutcome(text);
    PrefixForms();
  }

  /** Any line starting with "INFO: " is printed as "INFO:" alone. */
  lemma InfoLine(text: string)
    requires Prefixes[0] <= text
    ensures Rewritten(text, Prefixes) == "INFO:"
    ensures Highlight(text).highlighted == "INFO:"
  {
    FirstMatchIs(text, Prefixes, 0);
    CprintOutcome(text);
    PrefixForms();
  }

  /** As written, the interrupt notice prints as "INFO:"; the intended form highlights "INFO:" and keeps the rest. */
  lemma InterruptLost()
    ensures Rewritten("INFO: Interrupted by user.", Prefixes) == "INFO:"
    ensures Highlight("INFO: Interrupted by user.").highlighted == "INFO:"
  {
    var t := "INFO: Interrupted by user.";
    assert t == Prefixes[0] + "Interrupted by user.";
    PrefixOfAppend(Prefixes[0], "Interrupted by user.");
    InfoLine(t);
  }
}
