/**
 * The iperf3 input plugin: for every configured host it runs the iperf3
 * client with a JSON report, turns the report into one "iperf3" record with
 * protocol-specific fields and {host, protocol} tags, and stops at the first
 * host whose run fails. Init checks the configuration once before any run.
 *
 * The subprocess, the PATH search and the JSON byte parser are collaborators
 * given as functions: a runner outcome per command, a lookup per binary name
 * and a decoder per output text.
 */
module Iperf3 {
  import opened Wrappers
  import opened GoStrings
  import opened JsonValue
  import opened Iperf3Results

  /** A program to run: the binary as configured and the arguments after it. */
  datatype Command = Command(binary: string, args: seq<string>) {
    /** The argument vector, binary name first (cmd.Args). */
    function Argv(): seq<string> {
      [binary] + args
    }

    /** The command line as an error message shows it. */
    function Line(): string {
      Join(Argv(), " ")
    }
  }

  /** What running a command gives back: its captured standard output, or a failure with what was captured. */
  datatype RunOutcome = Exited(output: string) | Failed(cause: string, output: string)

  /** The error Gather returns for the first host whose run failed. */
  datatype GatherError = RunFailed(commandLine: string, cause: string, output: string) {
    function Message(): string {
      "failed to run command " + commandLine + ": " + cause + " - " + output
    }
  }

  /** The errors Init reports, in the order it checks for them. */
  datatype InitError = BinaryNotFound | NoHosts | BadProtocol {
    function Message(): string {
      match this
      case BinaryNotFound => "could not find iperf3 binary"
      case NoHosts => "must specify at least one target host"
      case BadProtocol => "protocol must be either udp or tcp"
    }
  }

  /** One metric handed to the accumulator: measurement name, fields and tags. */
  datatype Record = Record(measurement: string, fields: map<string, real>, tags: map<string, string>)

  /** The values Gather copies out of the plugin before its loop. */
  datatype Settings = Settings(binary: string, protocol: string, transmitTime: int)

  // ---------------------------------------------------------------------
  // Arguments for one host

  /** The arguments iperf3 is run with for `host`. */
  function BuildArgs(host: string, protocol: string, transmitTime: int): seq<string> {
    ["-c", host, "--json"] + ["-t", Itoa(transmitTime)] + (if protocol == "udp" then ["-u"] else [])
  }

  /** What an argument list asks the iperf3 client for. */
  datatype ClientRequest = ClientRequest(host: string, transmitTime: int, udp: bool)

  /**
   * Reads an argument list of exactly the form BuildArgs produces:
   * client mode with a host, a JSON report, a duration, and an optional
   * trailing UDP flag.
   */
  function ParseArgs(args: seq<string>): Option<ClientRequest> {
    if (|args| == 5 || (|args| == 6 && args[5] == "-u"))
       && args[0] == "-c" && args[2] == "--json" && args[3] == "-t"
       && ParseDecimal(args[4]).Some?
    then Some(ClientRequest(args[1], ParseDecimal(args[4]).value, |args| == 6))
    else None
  }

  /**
   * The argument list carries the host right after "-c", the duration
   * right after "-t", and asks for UDP exactly when the protocol is "udp".
   */
  lemma ArgsRoundTrip(host: string, protocol: string, transmitTime: int)
    ensures ParseArgs(BuildArgs(host, protocol, transmitTime))
      == Some(ClientRequest(host, transmitTime, protocol == "udp"))
  {
    ItoaRoundTrip(transmitTime);
  }

  /** Distinct requests never share an argument list: a list determines its request. */
  lemma ArgsDetermineRequest(args: seq<string>)
    requires ParseArgs(args).Some?
    ensures var r := ParseArgs(args).value;
      BuildArgs(r.host, if r.udp then "udp" else "tcp", r.transmitTime) == args
  {
    ParseDecimalRoundTrip(args[4]);
  }

  /** The rendered duration is never the UDP flag. */
  lemma DurationIsNotFlag(transmitTime: int)
    ensures Itoa(transmitTime) != "-u"
  {
    var t := Itoa(transmitTime);
    if transmitTime < 0 && |t| == 2 {
      assert IsDigit(t[1..][0]);
    }
  }

  /**
   * The arguments after the host: the report and duration flags, then "-u"
   * for "udp". A regrouping of BuildArgs that keeps the flag lemmas cheap.
   */
  lemma ArgsAfterHost(host: string, protocol: string, transmitTime: int)
    ensures BuildArgs(host, protocol, transmitTime)
      == ["-c", host] + (["--json", "-t", Itoa(transmitTime)] + if protocol == "udp" then ["-u"] else [])
  {
  }

  /**
   * "-u" is passed once for "udp" and never otherwise, apart from a host that
   * is itself named "-u": no other argument can be "-u", the rendered
   * duration included.
   */
  lemma UdpFlagCount(host: string, protocol: string, transmitTime: int)
    ensures multiset(BuildArgs(host, protocol, transmitTime))["-u"]
      == (if host == "-u" then 1 else 0) + (if protocol == "udp" then 1 else 0)
  {
    DurationIsNotFlag(transmitTime);
    ArgsAfterHost(host, protocol, transmitTime);
  }

  /** After the host, "-u" appears exactly when the protocol is "udp". */
  lemma UdpFlagIffUdp(host: string, protocol: string, transmitTime: int)
    ensures "-u" in BuildArgs(host, protocol, transmitTime)[2..] <==> protocol == "udp"
  {
    DurationIsNotFlag(transmitTime);
    ArgsAfterHost(host, protocol, transmitTime);
    var rest := BuildArgs(host, protocol, transmitTime)[2..];
    assert rest == ["--json", "-t", Itoa(transmitTime)] + if protocol == "udp" then ["-u"] else [];
  }

  // ---------------------------------------------------------------------
  // One record per host

  /** The tags of every record: the host and the protocol, verbatim. */
  function Tags(host: string, protocol: string): map<string, string> {
    map["host" := host, "protocol" := protocol]
  }

  /** The record for a host whose run produced the report `doc`. */
  function MakeRecord(host: string, protocol: string, doc: Option<Json>): Record {
    Record("iperf3", Metrics(protocol, doc), Tags(host, protocol))
  }

  function CommandFor(s: Settings, host: string): Command {
    Command(s.binary, BuildArgs(host, s.protocol, s.transmitTime))
  }

  /**
   * After Init has accepted the protocol, the two protocol tests of Gather
   * agree: UDP fields are reported exactly when "-u" was passed.
   */
  lemma ProtocolTestsAgree(host: string, protocol: string, transmitTime: int, doc: Option<Json>)
    requires protocol == "tcp" || protocol == "udp"
    ensures ("-u" in BuildArgs(host, protocol, transmitTime)[2..]) <==> Metrics(protocol, doc).Keys == UdpFieldNames
  {
    UdpFlagIffUdp(host, protocol, transmitTime);
    FieldNamesDisjoint();
    assert "sent_bps" in TcpFieldNames;
  }

  /**
   * A protocol Init would refuse (any but "tcp" and "udp") runs iperf3 in
   * its default TCP mode but reads the report as UDP.
   */
  lemma UncheckedProtocolMismatch(host: string, protocol: string, transmitTime: int, doc: Option<Json>)
    requires protocol != "tcp" && protocol != "udp"
    ensures "-u" !in BuildArgs(host, protocol, transmitTime)[2..]
    ensures Metrics(protocol, doc).Keys == UdpFieldNames
  {
  }

  /**
   * The command line in an error message gives back the argument vector,
   * as long as no argument holds a space itself.
   */
  lemma CommandLineNamesCommand(cmd: Command)
    requires forall i :: 0 <= i < |cmd.Argv()| ==> ' ' !in cmd.Argv()[i]
    ensures Split(cmd.Line(), ' ') == cmd.Argv()
  {
    SplitJoin(cmd.Argv(), ' ');
  }

  // ---------------------------------------------------------------------
  // One collection cycle

  /** What a cycle hands to the accumulator, which commands it runs, and what it returns. */
  datatype Cycle = Cycle(records: seq<Record>, commands: seq<Command>, err: Option<GatherError>)

  /**
   * The cycle over `hosts`: run each host's command in turn; on a failure
   * return its error at once, otherwise emit the host's record and go on.
   */
  function Gathered(s: Settings, hosts: seq<string>, outcome: Command -> RunOutcome,
                    decode: string -> Option<Json>): (c: Cycle)
    ensures |c.records| <= |c.commands| <= |hosts|
    decreases |hosts|
  {
    if hosts == [] then Cycle([], [], None)
    else
      var cmd := CommandFor(s, hosts[0]);
      match outcome(cmd)
      case Failed(cause, output) => Cycle([], [cmd], Some(RunFailed(cmd.Line(), cause, output)))
      case Exited(output) =>
        var rest := Gathered(s, hosts[1..], outcome, decode);
        Cycle([MakeRecord(hosts[0], s.protocol, decode(output))] + rest.records,
              [cmd] + rest.commands, rest.err)
  }

  /**
   * One step of a cycle, Gathered unfolded at index `i`: the loop of Gather
   * uses it so that its own proof stays small.
   */
  lemma CycleStep(s: Settings, hosts: seq<string>, i: nat,
      outcome: Command -> RunOutcome, decode: string -> Option<Json>)
    requires i < |hosts|
    ensures var here := Gathered(s, hosts[i..], outcome, decode);
      var next := Gathered(s, hosts[i + 1..], outcome, decode);
      var cmd := CommandFor(s, hosts[i]);
      match outcome(cmd)
      case Failed(cause, output) =>
        here == Cycle([], [cmd], Some(RunFailed(cmd.Line(), cause, output)))
      case Exited(output) =>
        here == Cycle([MakeRecord(hosts[i], s.protocol, decode(output))] + next.records,
                      [cmd] + next.commands, next.err)
  {
  }

  /**
   * Hosts are run in configured order and none after the first failure;
   * each host run before that contributes its record, and a failure is
   * reported with its command line, cause and captured output.
   */
  lemma {:induction false} CycleStopsAtFirstFailure(s: Settings, hosts: seq<string>,
      outcome: Command -> RunOutcome, decode: string -> Option<Json>)
    ensures var c := Gathered(s, hosts, outcome, decode);
      && |c.records| <= |hosts|
      && |c.commands| == |c.records| + (if c.err.Some? then 1 else 0)
      && (forall i :: 0 <= i < |c.commands| ==> c.commands[i] == CommandFor(s, hosts[i]))
      && (forall i :: 0 <= i < |c.records| ==>
            && outcome(c.commands[i]).Exited?
            && c.records[i] == MakeRecord(hosts[i], s.protocol, decode(outcome(c.commands[i]).output)))
      && (c.err.None? ==> |c.records| == |hosts|)
      && (c.err.Some? ==>
            var failed := outcome(c.commands[|c.records|]);
            && failed.Failed?
            && c.err.value == RunFailed(c.commands[|c.records|].Line(), failed.cause, failed.output))
    decreases |hosts|
  {
    if hosts != [] {
      CycleStopsAtFirstFailure(s, hosts[1..], outcome, decode);
    }
  }

  /** A cycle returns no error exactly when every host's run succeeds. */
  lemma {:induction false} CycleSucceedsIff(s: Settings, hosts: seq<string>,
      outcome: Command -> RunOutcome, decode: string -> Option<Json>)
    ensures Gathered(s, hosts, outcome, decode).err.None?
      <==> forall i :: 0 <= i < |hosts| ==> outcome(CommandFor(s, hosts[i])).Exited?
    decreases |hosts|
  {
    if hosts != [] {
      CycleSucceedsIff(s, hosts[1..], outcome, decode);
      assert forall i :: 1 <= i < |hosts| ==> hosts[1..][i - 1] == hosts[i];
    }
  }

  /**
   * Every record of a cycle is named "iperf3", tagged with exactly its host
   * and the protocol, and has the protocol's field names.
   */
  lemma {:induction false} CycleRecordsShape(s: Settings, hosts: seq<string>,
      outcome: Command -> RunOutcome, decode: string -> Option<Json>)
    ensures var c := Gathered(s, hosts, outcome, decode);
      forall i :: 0 <= i < |c.records| ==>
        && c.records[i].measurement == "iperf3"
        && c.records[i].tags.Keys == {"host", "protocol"}
        && c.records[i].tags["host"] == hosts[i]
        && c.records[i].tags["protocol"] == s.protocol
        && c.records[i].fields.Keys == if s.protocol == "tcp" then TcpFieldNames else UdpFieldNames
  {
    CycleStopsAtFirstFailure(s, hosts, outcome, decode);
  }

  /**
   * The report decoder never decides which hosts run or whether the cycle
   * fails: those depend on the runner alone.
   */
  lemma {:induction false} DecodeNeverFails(s: Settings, hosts: seq<string>, outcome: Command -> RunOutcome,
      decode: string -> Option<Json>, decode': string -> Option<Json>)
    ensures Gathered(s, hosts, outcome, decode).err == Gathered(s, hosts, outcome, decode').err
    ensures Gathered(s, hosts, outcome, decode).commands == Gathered(s, hosts, outcome, decode').commands
    ensures |Gathered(s, hosts, outcome, decode).records| == |Gathered(s, hosts, outcome, decode').records|
    decreases |hosts|
  {
    if hosts != [] {
      DecodeNeverFails(s, hosts[1..], outcome, decode, decode');
    }
  }

  /** Regrouping a concatenation; stated generically to keep Gather's proof cheap. */
  lemma AppendAssociative<T>(a: seq<T>, b: seq<T>, c: seq<T>)
    ensures a + (b + c) == (a + b) + c
  {
  }

  // ---------------------------------------------------------------------
  // Collaborators

  /** The accumulator, seen as the sequence of records added to it. */
  class Accumulator {
    var records: seq<Record>

    constructor ()
      ensures records == []
    {
      records := [];
    }

    method AddFields(measurement: string, fields: map<string, real>, tags: map<string, string>)
      modifies this
      ensures records == old(records) + [Record(measurement, fields, tags)]
    {
      records := records + [Record(measurement, fields, tags)];
    }
  }

  /** Runs commands; `outcome` says how each run ends and `invoked` logs the runs in order. */
  class ProcessRunner {
    const outcome: Command -> RunOutcome
    var invoked: seq<Command>

    constructor (outcome: Command -> RunOutcome)
      ensures this.outcome == outcome && invoked == []
    {
      this.outcome := outcome;
      invoked := [];
    }

    method Output(cmd: Command) returns (r: RunOutcome)
      modifies this
      ensures invoked == old(invoked) + [cmd]
      ensures r == outcome(cmd)
    {
      invoked := invoked + [cmd];
      r := outcome(cmd);
    }
  }

  // ---------------------------------------------------------------------
  // The plugin

  class Iperf3 {
    /** Name or path of the iperf3 binary; Init replaces it by the resolved path. */
    var binary: string
    /** The iperf3 servers to measure against, in order. */
    var hosts: seq<string>
    /** "tcp" or "udp", once Init has accepted it. */
    var protocol: string
    /** Seconds to transmit for. */
    var transmitTime: int

    /** The factory registered for the plugin: every instance starts from its own copy of the defaults. */
    constructor Default()
      ensures binary == "iperf3" && hosts == [] && protocol == "tcp" && transmitTime == 10
    {
      binary := "iperf3";
      hosts := [];
      protocol := "tcp";
      transmitTime := 10;
    }

    /**
     * One collection cycle: adds exactly the records of Gathered to the
     * accumulator, runs exactly its commands, and returns its error.
     */
    method Gather(acc: Accumulator, runner: ProcessRunner, decode: string -> Option<Json>)
      returns (err: Option<GatherError>)
      modifies acc, runner
      ensures var c := Gathered(Settings(binary, protocol, transmitTime), hosts, runner.outcome, decode);
        && acc.records == old(acc.records) + c.records
        && runner.invoked == old(runner.invoked) + c.commands
        && err == c.err
    {
      var settings := Settings(binary, protocol, transmitTime);
      var all := hosts;
      ghost var cycle := Gathered(settings, all, runner.outcome, decode);
      ghost var before, log := acc.records, runner.invoked;
      ghost var added: seq<Record> := [];
      ghost var ran: seq<Command> := [];
      ghost var rest := cycle;
      var i := 0;
      while i < |all|
        invariant 0 <= i <= |all|
        invariant rest == Gathered(settings, all[i..], runner.outcome, decode)
        invariant acc.records == before + added
        invariant runner.invoked == log + ran
        invariant cycle == Cycle(added + rest.records, ran + rest.commands, rest.err)
      {
        var host := all[i];
        CycleStep(settings, all, i, runner.outcome, decode);
        var cmd := Command(settings.binary, BuildArgs(host, settings.protocol, settings.transmitTime));
        var out := runner.Output(cmd);
        AppendAssociative(log, ran, [cmd]);
        ran := ran + [cmd];
        if out.Failed? {
          assert rest.records == [] && rest.commands == [cmd];
          assert added + [] == added;
          return Some(RunFailed(cmd.Line(), out.cause, out.output));
        }
        var record := MakeRecord(host, settings.protocol, decode(out.output));
        acc.AddFields(record.measurement, record.fields, record.tags);
        ghost var next := Gathered(settings, all[i + 1..], runner.outcome, decode);
        assert rest == Cycle([record] + next.records, [cmd] + next.commands, next.err);
        AppendAssociative(added, [record], next.records);
        AppendAssociative(before, added, [record]);
        AppendAssociative(ran[..|ran| - 1], [cmd], next.commands);
        assert ran[..|ran| - 1] + [cmd] == ran;
        added, rest := added + [record], next;
        i := i + 1;
      }
      assert rest == Cycle([], [], None);
      return None;
    }

    /**
     * Checks the configuration in order: the binary must be found (and is
     * then replaced by its resolved path), there must be a host, and the
     * protocol must be "tcp" or "udp". The transmit time is not checked.
     */
    method Init(lookPath: string -> Option<string>) returns (err: Option<InitError>)
      modifies this`binary
      ensures lookPath(old(binary)).None? ==> err == Some(BinaryNotFound) && binary == old(binary)
      ensures lookPath(old(binary)).Some? ==> binary == lookPath(old(binary)).value
      ensures lookPath(old(binary)).Some? ==>
        err == if |hosts| < 1 then Some(NoHosts)
               else if protocol != "tcp" && protocol != "udp" then Some(BadProtocol)
               else None
      ensures err.None? <==>
        lookPath(old(binary)).Some? && |hosts| >= 1 && (protocol == "tcp" || protocol == "udp")
    {
      var path := lookPath(binary);
      if path.None? {
        return Some(BinaryNotFound);
      }
      binary := path.value;
      if |hosts| < 1 {
        return Some(NoHosts);
      }
      if protocol != "tcp" && protocol != "udp" {
        return Some(BadProtocol);
      }
      return None;
    }
  }

  /**
   * Two instances made by the factory share nothing: resolving the binary
   * of the first leaves the second at the default name.
   */
  method InstancesAreIndependent(lookPath: string -> Option<string>) returns (first: Iperf3, second: Iperf3)
    ensures first != second
    ensures second.binary == "iperf3" && second.hosts == [] && second.protocol == "tcp" && second.transmitTime == 10
    ensures first.binary == if lookPath("iperf3").Some? then lookPath("iperf3").value else "iperf3"
  {
    first := new Iperf3.Default();
    second := new Iperf3.Default();
    var _ := first.Init(lookPath);
  }
}
