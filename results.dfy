/**
 * The two shapes the plugin decodes iperf3's JSON report into (tcpResult and
 * udpResult in iperf3.go) and the field maps it builds from them. Every
 * float64 starts at zero and keeps that value unless the report holds a
 * number at the matching place, so a missing, mistyped or undecodable part
 * of the report reads as zero.
 */
module Iperf3Results {
  import opened Wrappers
  import opened JsonValue

  datatype SentSummary = SentSummary(bytes: real, seconds: real, bitsPerSecond: real, retransmits: real)

  datatype ReceivedSummary = ReceivedSummary(bytes: real, seconds: real, bitsPerSecond: real)

  /** The "end" object of a TCP report: "sum_sent" and "sum_received". */
  datatype TcpResult = TcpResult(sent: SentSummary, received: ReceivedSummary)

  datatype UdpSummary = UdpSummary(
    bytes: real, seconds: real, bitsPerSecond: real, jitterMs: real,
    packets: real, lostPackets: real, lostPercent: real)

  /** The "end" object of a UDP report: its "sum" object. */
  datatype UdpResult = UdpResult(sum: UdpSummary)

  /** The document a decode starts from; text that is not JSON leaves everything at zero. */
  function Root(doc: Option<Json>): Json {
    if doc.Some? then doc.value else Null
  }

  /** Decodes into tcpResult struct by struct, as encoding/json walks it. */
  function DecodeTcp(doc: Option<Json>): TcpResult
  {
    var total := Member(Root(doc), "end");
    var sent := Member(total, "sum_sent");
    var received := Member(total, "sum_received");
    TcpResult(
      SentSummary(
        Float(Member(sent, "bytes")), Float(Member(sent, "seconds")),
        Float(Member(sent, "bits_per_second")), Float(Member(sent, "retransmits"))),
      ReceivedSummary(
        Float(Member(received, "bytes")), Float(Member(received, "seconds")),
        Float(Member(received, "bits_per_second"))))
  }

  /** Decodes into udpResult struct by struct, as encoding/json walks it. */
  function DecodeUdp(doc: Option<Json>): UdpResult
  {
    var sum := Member(Member(Root(doc), "end"), "sum");
    UdpResult(UdpSummary(
      Float(Member(sum, "bytes")), Float(Member(sum, "seconds")),
      Float(Member(sum, "bits_per_second")), Float(Member(sum, "jitter_ms")),
      Float(Member(sum, "packets")), Float(Member(sum, "lost_packets")),
      Float(Member(sum, "lost_percent"))))
  }

  /** Each field of tcpResult holds the number at its path in the report, or zero. */
  lemma TcpFieldsFollowPaths(doc: Option<Json>)
    ensures DecodeTcp(doc).sent.bytes == NumberAt(Root(doc), ["end", "sum_sent", "bytes"])
    ensures DecodeTcp(doc).sent.seconds == NumberAt(Root(doc), ["end", "sum_sent", "seconds"])
    ensures DecodeTcp(doc).sent.bitsPerSecond == NumberAt(Root(doc), ["end", "sum_sent", "bits_per_second"])
    ensures DecodeTcp(doc).sent.retransmits == NumberAt(Root(doc), ["end", "sum_sent", "retransmits"])
    ensures DecodeTcp(doc).received.bytes == NumberAt(Root(doc), ["end", "sum_received", "bytes"])
    ensures DecodeTcp(doc).received.seconds == NumberAt(Root(doc), ["end", "sum_received", "seconds"])
    ensures DecodeTcp(doc).received.bitsPerSecond == NumberAt(Root(doc), ["end", "sum_received", "bits_per_second"])
  {
  }

  /** Each field of udpResult holds the number at its path in the report, or zero. */
  lemma UdpFieldsFollowPaths(doc: Option<Json>)
    ensures DecodeUdp(doc).sum.bytes == NumberAt(Root(doc), ["end", "sum", "bytes"])
    ensures DecodeUdp(doc).sum.seconds == NumberAt(Root(doc), ["end", "sum", "seconds"])
    ensures DecodeUdp(doc).sum.bitsPerSecond == NumberAt(Root(doc), ["end", "sum", "bits_per_second"])
    ensures DecodeUdp(doc).sum.jitterMs == NumberAt(Root(doc), ["end", "sum", "jitter_ms"])
    ensures DecodeUdp(doc).sum.packets == NumberAt(Root(doc), ["end", "sum", "packets"])
    ensures DecodeUdp(doc).sum.lostPackets == NumberAt(Root(doc), ["end", "sum", "lost_packets"])
    ensures DecodeUdp(doc).sum.lostPercent == NumberAt(Root(doc), ["end", "sum", "lost_percent"])
  {
  }

  /** The report iperf3 writes for a TCP run with these totals. */
  function EncodeTcp(r: TcpResult): (doc: Json)
    ensures DecodeTcp(Some(doc)) == r
  {
    Object(map["end" := Object(map[
      "sum_sent" := Object(map[
        "bytes" := Number(r.sent.bytes), "seconds" := Number(r.sent.seconds),
        "bits_per_second" := Number(r.sent.bitsPerSecond),
        "retransmits" := Number(r.sent.retransmits)]),
      "sum_received" := Object(map[
        "bytes" := Number(r.received.bytes), "seconds" := Number(r.received.seconds),
        "bits_per_second" := Number(r.received.bitsPerSecond)])])])
  }

  /** The report iperf3 writes for a UDP run with these totals. */
  function EncodeUdp(r: UdpResult): (doc: Json)
    ensures DecodeUdp(Some(doc)) == r
  {
    Object(map["end" := Object(map[
      "sum" := Object(map[
        "bytes" := Number(r.sum.bytes), "seconds" := Number(r.sum.seconds),
        "bits_per_second" := Number(r.sum.bitsPerSecond),
        "jitter_ms" := Number(r.sum.jitterMs), "packets" := Number(r.sum.packets),
        "lost_packets" := Number(r.sum.lostPackets),
        "lost_percent" := Number(r.sum.lostPercent)])])])
  }

  const TcpFieldNames: set<string> := {"sent_bps", "sent_retransmits", "received_bps"}

  const UdpFieldNames: set<string> := {"bps", "jitter_ms", "packets", "lost_packets", "lost_percent"}

  /**
   * The field map of one record. The key set is chosen by the protocol alone
   * (TCP keys exactly when the protocol is "tcp"), never by the report, and
   * the two key sets never meet.
   */
  function Metrics(protocol: string, doc: Option<Json>): (fields: map<string, real>)
    ensures fields.Keys == if protocol == "tcp" then TcpFieldNames else UdpFieldNames
  {
    if protocol == "tcp" then
      var res := DecodeTcp(doc);
      map[
        "sent_bps" := res.sent.bitsPerSecond,
        "sent_retransmits" := res.sent.retransmits,
        "received_bps" := res.received.bitsPerSecond]
    else
      var res := DecodeUdp(doc);
      map[
        "bps" := res.sum.bitsPerSecond,
        "jitter_ms" := res.sum.jitterMs,
        "packets" := res.sum.packets,
        "lost_packets" := res.sum.lostPackets,
        "lost_percent" := res.sum.lostPercent]
  }

  /** No field name is both a TCP and a UDP field, so the two kinds never share a record. */
  lemma FieldNamesDisjoint()
    ensures TcpFieldNames !! UdpFieldNames
  {
    assert forall k :: k in TcpFieldNames ==> |k| > 0 && (k[0] == 's' || k[0] == 'r');
    assert forall k :: k in UdpFieldNames ==> |k| > 0 && k[0] in "bjpl";
  }

  /**
   * For any report, the three TCP fields are the numbers at
   * end.sum_sent.bits_per_second, end.sum_sent.retransmits and
   * end.sum_received.bits_per_second, each zero where the report has none.
   */
  lemma TcpMetricsFollowPaths(doc: Option<Json>)
    ensures Metrics("tcp", doc) == map[
      "sent_bps" := NumberAt(Root(doc), ["end", "sum_sent", "bits_per_second"]),
      "sent_retransmits" := NumberAt(Root(doc), ["end", "sum_sent", "retransmits"]),
      "received_bps" := NumberAt(Root(doc), ["end", "sum_received", "bits_per_second"])]
  {
    TcpFieldsFollowPaths(doc);
  }

  /**
   * For any report and any protocol but "tcp", the five UDP fields are the
   * numbers at end.sum.*, each zero where the report has none.
   */
  lemma UdpMetricsFollowPaths(protocol: string, doc: Option<Json>)
    requires protocol != "tcp"
    ensures Metrics(protocol, doc) == map[
      "bps" := NumberAt(Root(doc), ["end", "sum", "bits_per_second"]),
      "jitter_ms" := NumberAt(Root(doc), ["end", "sum", "jitter_ms"]),
      "packets" := NumberAt(Root(doc), ["end", "sum", "packets"]),
      "lost_packets" := NumberAt(Root(doc), ["end", "sum", "lost_packets"]),
      "lost_percent" := NumberAt(Root(doc), ["end", "sum", "lost_percent"])]
  {
    UdpFieldsFollowPaths(doc);
  }

  /** A TCP report's sender rate, retransmits and receiver rate become the three fields. */
  lemma TcpMetricsOfReport(r: TcpResult)
    ensures Metrics("tcp", Some(EncodeTcp(r))) == map[
      "sent_bps" := r.sent.bitsPerSecond,
      "sent_retransmits" := r.sent.retransmits,
      "received_bps" := r.received.bitsPerSecond]
  {
  }

  /** Under any protocol other than "tcp", a UDP report's "sum" values become the five fields. */
  lemma UdpMetricsOfReport(protocol: string, r: UdpResult)
    requires protocol != "tcp"
    ensures Metrics(protocol, Some(EncodeUdp(r))) == map[
      "bps" := r.sum.bitsPerSecond,
      "jitter_ms" := r.sum.jitterMs,
      "packets" := r.sum.packets,
      "lost_packets" := r.sum.lostPackets,
      "lost_percent" := r.sum.lostPercent]
  {
  }

  /** Output that is not JSON still yields the full key set, every value zero. */
  lemma UndecodableReadsZero(protocol: string)
    ensures forall k :: k in Metrics(protocol, None) ==> Metrics(protocol, None)[k] == 0.0
  {
  }

  /**
   * A report that holds nothing but the sender rate gives that rate under
   * "sent_bps" and zero for the other two fields.
   */
  lemma PartialTcpReport(bps: real)
    ensures Metrics("tcp", Some(Nest(["end", "sum_sent", "bits_per_second"], Number(bps))))
      == map["sent_bps" := bps, "sent_retransmits" := 0.0, "received_bps" := 0.0]
  {
  }
}
