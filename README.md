# iperf3 input plugin: a Dafny model

This project models the iperf3 input plugin of Telegraf (`plugins/inputs/iperf3/iperf3.go`).
The plugin measures network throughput by running the `iperf3` client against each
configured server with a JSON report. It turns every report into one metric record
named `iperf3`. A record has protocol-specific fields and the tags `host` and `protocol`.

The model has five modules:

- `Wrappers` holds the `Option` type.
- `GoStrings` holds `strconv.Itoa` and `strings.Join`. Each comes with an inverse
  (`ParseDecimal`, `Split`), so that what the rendered text determines is a proved round trip.
- `JsonValue` is the decoded JSON tree. It also holds the rule by which encoding/json fills a
  float64 field: a number is taken; null, a missing key, a non-object on the way or a value
  of another kind leaves the zero.
- `Iperf3Results` holds the `tcpResult` and `udpResult` shapes, their decoders, encoders
  that act as partners, and the protocol-selected field map `Metrics`.
- `Iperf3` holds the argument builder, the record and tag maps, and the cycle
  specification `Gathered` with its lemmas. It also holds the collaborators
  (`Accumulator`, `ProcessRunner`) and the class `Iperf3.Iperf3` with `Gather`, `Init`
  and the default-instance constructor.

`Gather` and `Init` change state in the source. In the model they are methods of a class:
`Gather` appends to the accumulator and to the runner's log of invocations, and `Init`
overwrites `binary`. `Gather` is proved to do exactly what the pure function `Gathered`
describes. The properties of a cycle are then proved about `Gathered`.

The collaborators are parameters:

- The subprocess is a `ProcessRunner`. A fixed function gives each command's outcome, and the
  runner logs every command it is asked to run.
- `exec.LookPath` is a function from a binary name to an optional resolved path.
- The JSON byte parser is a function from output text to `Option<Json>`. `None` stands for
  text that is not JSON.

The model follows the code on these points:

- A report that cannot be decoded is not an error. Its fields read as zero.
- The cycle aborts at the first host whose run fails.
- `Init` does not check the transmit time. Zero or negative values are accepted.
- `Init` overwrites `Binary` in place. It does not return a new configuration.
- There is no derived-throughput fallback (bytes divided by seconds).

## Model

| member | source | states |
|---|---|---|
| `GoStrings.Itoa` | plugins/inputs/iperf3/iperf3.go:94 | the rendered transmit time is non-empty, starts with '-' exactly for negative values, and otherwise is canonical decimal digits |
| `GoStrings.ItoaRoundTrip` | plugins/inputs/iperf3/iperf3.go:94 | every integer's rendering reads back as that integer |
| `GoStrings.ParseDecimalRoundTrip` | plugins/inputs/iperf3/iperf3.go:94 | ParseDecimal accepts nothing but renderings: every string it reads as an integer is exactly that integer's rendering |
| `GoStrings.SplitJoin` | plugins/inputs/iperf3/iperf3.go:102 | a space-joined line splits back into its parts when no part holds a space |
| `JsonValue.LookupNest` | plugins/inputs/iperf3/iperf3.go:55-83 | following a field path through a report built along it reaches the value placed there |
| `JsonValue.BrokenPathReadsZero` | plugins/inputs/iperf3/iperf3.go:55-83 | once a path breaks off (missing key or non-object), every field below it decodes as zero |
| `Iperf3Results.TcpFieldsFollowPaths` | plugins/inputs/iperf3/iperf3.go:55-69 | each tcpResult field is the number at end.sum_sent.* / end.sum_received.* of the report, or zero |
| `Iperf3Results.UdpFieldsFollowPaths` | plugins/inputs/iperf3/iperf3.go:71-83 | each udpResult field is the number at end.sum.* of the report, or zero |
| `Iperf3Results.EncodeTcp` | plugins/inputs/iperf3/iperf3.go:55-69 | decoding the TCP report that carries given totals gives back exactly those totals |
| `Iperf3Results.EncodeUdp` | plugins/inputs/iperf3/iperf3.go:71-83 | decoding the UDP report that carries given totals gives back exactly those totals |
| `Iperf3Results.Metrics` | plugins/inputs/iperf3/iperf3.go:105-122 | the field map's key set is the three TCP names exactly when the protocol is "tcp", otherwise the five UDP names, whatever the report |
| `Iperf3Results.FieldNamesDisjoint` | plugins/inputs/iperf3/iperf3.go:110-121 | no TCP field name is a UDP field name, so the two kinds never meet in one record |
| `Iperf3Results.TcpMetricsFollowPaths` | plugins/inputs/iperf3/iperf3.go:106-112 | for "tcp" and any report, the field map is exactly sent_bps, sent_retransmits and received_bps holding the numbers at end.sum_sent.bits_per_second, end.sum_sent.retransmits and end.sum_received.bits_per_second (zero where absent) |
| `Iperf3Results.UdpMetricsFollowPaths` | plugins/inputs/iperf3/iperf3.go:113-122 | for any protocol but "tcp" and any report, the field map is exactly bps, jitter_ms, packets, lost_packets and lost_percent holding the numbers at end.sum.bits_per_second, jitter_ms, packets, lost_packets and lost_percent (zero where absent) |
| `Iperf3Results.TcpMetricsOfReport` | plugins/inputs/iperf3/iperf3.go:106-112 | for "tcp", the report that carries given totals and nothing else yields its sender rate, retransmits and receiver rate as the three fields |
| `Iperf3Results.UdpMetricsOfReport` | plugins/inputs/iperf3/iperf3.go:113-122 | for any protocol but "tcp", the report that carries given totals and nothing else yields its end.sum rate, jitter, packets, lost packets and loss percentage as the five fields |
| `Iperf3Results.UndecodableReadsZero` | plugins/inputs/iperf3/iperf3.go:105-122 | output that is not JSON still yields the protocol's full key set with every value zero |
| `Iperf3Results.PartialTcpReport` | plugins/inputs/iperf3/iperf3.go:106-112 | a report holding only the sender rate gives that rate and zero for the other two fields |
| `Iperf3.ArgsRoundTrip` | plugins/inputs/iperf3/iperf3.go:92-97 | the arguments are "-c" host "--json" "-t" duration, then "-u" exactly when the protocol is "udp" |
| `Iperf3.ArgsDetermineRequest` | plugins/inputs/iperf3/iperf3.go:92-97 | an argument list of that form is produced by exactly one host, duration and mode |
| `Iperf3.DurationIsNotFlag` | plugins/inputs/iperf3/iperf3.go:94 | the rendered transmit time is never "-u", whatever its value |
| `Iperf3.UdpFlagCount` | plugins/inputs/iperf3/iperf3.go:92-97 | "-u" occurs once for "udp" and never otherwise, except as a host literally named "-u" |
| `Iperf3.UdpFlagIffUdp` | plugins/inputs/iperf3/iperf3.go:95-97 | after the host, "-u" appears exactly when the protocol is "udp" |
| `Iperf3.ProtocolTestsAgree` | plugins/inputs/iperf3/iperf3.go:95-113 | for "tcp" or "udp", UDP fields are reported exactly when "-u" was passed |
| `Iperf3.UncheckedProtocolMismatch` | plugins/inputs/iperf3/iperf3.go:95-113 | any other protocol runs iperf3 without "-u" yet reads the report as UDP |
| `Iperf3.CommandLineNamesCommand` | plugins/inputs/iperf3/iperf3.go:99-102 | the command line in the error message gives back the binary and arguments when none holds a space |
| `Iperf3.Gathered` | plugins/inputs/iperf3/iperf3.go:91-130 | a cycle emits no more records than commands and runs no more commands than there are hosts |
| `Iperf3.CycleStopsAtFirstFailure` | plugins/inputs/iperf3/iperf3.go:91-130 | hosts run in order, none after the first failure; each earlier host contributes its record; the error carries the failing command line, cause and output; with no error there is one record per host |
| `Iperf3.CycleSucceedsIff` | plugins/inputs/iperf3/iperf3.go:91-131 | a cycle returns no error exactly when every host's run succeeds |
| `Iperf3.CycleRecordsShape` | plugins/inputs/iperf3/iperf3.go:124-128 | every record is named "iperf3", tagged exactly {host, protocol} with its own host and the protocol verbatim, and has the protocol's field names |
| `Iperf3.DecodeNeverFails` | plugins/inputs/iperf3/iperf3.go:105-122 | the decoder never changes which hosts run, how many records are emitted or whether the cycle fails |
| `Iperf3.Accumulator.AddFields` | plugins/inputs/iperf3/iperf3.go:128 | adding a metric appends exactly one record to the accumulator |
| `Iperf3.ProcessRunner.Output` | plugins/inputs/iperf3/iperf3.go:99-100 | running a command logs it and returns its outcome |
| `Iperf3.Iperf3.Gather` | plugins/inputs/iperf3/iperf3.go:85-131 | a cycle appends exactly the records of Gathered to the accumulator, runs exactly its commands and returns its error |
| `Iperf3.Iperf3.Init` | plugins/inputs/iperf3/iperf3.go:134-153 | a failed lookup is reported first and leaves the binary alone; otherwise the binary becomes the resolved path, then no hosts and then a protocol other than tcp/udp are reported; Init succeeds iff all three checks pass |
| `Iperf3.Iperf3.Default` | plugins/inputs/iperf3/iperf3.go:155-168 | a new instance has binary "iperf3", no hosts, protocol "tcp" and transmit time 10 |
| `Iperf3.InstancesAreIndependent` | plugins/inputs/iperf3/iperf3.go:155-168 | two instances from the factory are distinct, and running Init on one leaves the other at the defaults |

## Left out

- Subprocess execution (`execCommand`, `cmd.Output`) is a runner whose outcome per command is a fixed function. A second run of the same command gives the same outcome, and timeouts and exit codes fold into `Failed`.
- `exec.LookPath` is a function from a name to an optional path. The PATH search itself is not modelled.
- The byte-level JSON parser is a function from output text to `Option<Json>`. Go's case-insensitive key matching is not modelled. The `udpResult` key `Sum` has no JSON tag and matches "sum" through that rule; the model uses "sum". Duplicate keys merging into one struct and number-to-float64 overflow are not modelled either.
- float64 values are `real` and are only copied. IEEE rounding is not modelled.
- Captured output is text (`string`). Go's `string(out)` is byte-for-byte, and no encoding is modelled.
- Go's `int` width for the transmit time is not modelled. `Itoa` is defined for every integer, and no arithmetic is done on it.
- The debug printing of the decoded result (`fmt.Println`, `fmt.Printf`) writes to standard output and has no contract.
- `Description`, `SampleConfig`, the sample configuration text and registration through `inputs.Add` are static text and framework plumbing.
- The accumulator's timestamping is not modelled. The accumulator is only the sequence of records added to it.
