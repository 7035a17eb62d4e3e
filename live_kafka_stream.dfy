/** The live stream overlay: the newest eight events laid out right to left. */
module LiveKafkaStream {
  import opened Seqs
  import opened UiTypes

  /** An event with its horizontal position, in percent of the width. */
  datatype StreamItem = StreamItem(event: SecurityEvent, xPos: int)

  /** streamData. */
  function StreamData(events: seq<SecurityEvent>): (items: seq<StreamItem>)
    ensures |items| == Min(8, |events|)
    ensures forall i :: 0 <= i < |items| ==> items[i].event == events[i]
    ensures forall i :: 0 <= i < |items| ==> items[i].xPos == 75 - 12 * i
  {
    var shown := Take(events, 8);
    seq(|shown|, i requires 0 <= i < |shown| => StreamItem(shown[i], 75 - 12 * i))
  }

  /** getSeverityColor. */
  function SeverityColor(sev: Severity): (c: string)
    ensures c == "text-red-500" <==> sev == Critical
    ensures c == "text-orange-500" <==> sev == High
    ensures c == "text-amber-400" <==> sev == Medium
    ensures c == "text-emerald-500" <==> sev == Low || sev == Info
  {
    match sev
    case Critical => "text-red-500"
    case High => "text-orange-500"
    case Medium => "text-amber-400"
    case _ => "text-emerald-500"
  }
}
