/** The globe's data: attack arcs towards the defended site and pulsing rings. */
module ThreatMap {
  import opened Seqs
  import opened UiTypes

  /** The defended site every arc ends at. */
  const TARGET_COORDS: Coords := Coords(38.8951, -77.0364)

  const RED_PAIR: seq<string> := ["#ef4444", "#f87171"]
  const ORANGE_PAIR: seq<string> := ["#f97316", "#fb923c"]

  datatype Arc = Arc(startLat: real, startLng: real, endLat: real, endLng: real, color: seq<string>)
  datatype Ring = Ring(lat: real, lng: real)

  predicate IsArcSeverity(e: SecurityEvent) { e.severity == Critical || e.severity == High }

  /** The events drawn as arcs: the first 15 CRITICAL or HIGH ones. */
  function ArcEvents(events: seq<SecurityEvent>): (sel: seq<SecurityEvent>)
    ensures |sel| == Min(15, |Filter(events, IsArcSeverity)|)
    ensures FirstMatches(sel, events, IsArcSeverity)
    ensures forall i :: 0 <= i < |sel| ==> IsArcSeverity(sel[i])
    ensures IsSubsequence(sel, events)
  {
    var f := Filter(events, IsArcSeverity);
    FilterIsSubsequence(events, IsArcSeverity);
    TakeIsSubsequence(f, 15);
    SubsequenceTransitive(Take(f, 15), f, events);
    FilterPrefixFirstMatches(events, IsArcSeverity, 15);
    Take(f, 15)
  }

  function ArcOf(e: SecurityEvent): Arc {
    Arc(e.coordinates.lat, e.coordinates.lng, TARGET_COORDS.lat, TARGET_COORDS.lng,
      if e.severity == Critical then RED_PAIR else ORANGE_PAIR)
  }

  /** arcData: one arc per selected event, from its coordinates to the target. */
  function ArcData(events: seq<SecurityEvent>): (arcs: seq<Arc>)
    ensures |arcs| == |ArcEvents(events)| <= 15
    ensures forall i :: 0 <= i < |arcs| ==>
      var e := ArcEvents(events)[i];
      arcs[i].startLat == e.coordinates.lat && arcs[i].startLng == e.coordinates.lng &&
      arcs[i].endLat == TARGET_COORDS.lat && arcs[i].endLng == TARGET_COORDS.lng &&
      (arcs[i].color == RED_PAIR <==> e.severity == Critical) &&
      (arcs[i].color == ORANGE_PAIR <==> e.severity == High)
  {
    var sel := ArcEvents(events);
    seq(|sel|, i requires 0 <= i < |sel| => ArcOf(sel[i]))
  }

  /** The events drawn as rings: the first five CRITICAL ones. */
  function RingEvents(events: seq<SecurityEvent>): (sel: seq<SecurityEvent>)
    ensures |sel| == Min(5, |Filter(events, IsCriticalEvent)|)
    ensures FirstMatches(sel, events, IsCriticalEvent)
    ensures forall i :: 0 <= i < |sel| ==> IsCriticalEvent(sel[i])
    ensures IsSubsequence(sel, events)
  {
    var f := Filter(events, IsCriticalEvent);
    FilterIsSubsequence(events, IsCriticalEvent);
    TakeIsSubsequence(f, 5);
    SubsequenceTransitive(Take(f, 5), f, events);
    FilterPrefixFirstMatches(events, IsCriticalEvent, 5);
    Take(f, 5)
  }

  /** ringsData: one ring at each selected event's coordinates. */
  function RingsData(events: seq<SecurityEvent>): (rings: seq<Ring>)
    ensures |rings| == |RingEvents(events)| <= 5
    ensures forall i :: 0 <= i < |rings| ==>
      rings[i] == Ring(RingEvents(events)[i].coordinates.lat, RingEvents(events)[i].coordinates.lng)
  {
    var sel := RingEvents(events);
    seq(|sel|, i requires 0 <= i < |sel| => Ring(sel[i].coordinates.lat, sel[i].coordinates.lng))
  }

  /** Every ring event also gets an arc when at most 15 events are CRITICAL or
      HIGH, since then every such event is drawn as an arc. */
  lemma RingsAmongArcs(events: seq<SecurityEvent>)
    requires |Filter(events, IsArcSeverity)| <= 15
    ensures forall e :: e in RingEvents(events) ==> e in ArcEvents(events)
  {
    forall e | e in RingEvents(events)
      ensures e in ArcEvents(events)
    {
      FilterMembership(events, IsCriticalEvent, e);
      FilterMembership(events, IsArcSeverity, e);
    }
  }
}
