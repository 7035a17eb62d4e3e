/** The event list's severity filter. */
module EventStream {
  import opened Seqs
  import opened UiTypes

  datatype SeverityFilter = All | Only(severity: Severity)

  function Matches(f: SeverityFilter): SecurityEvent -> bool {
    (e: SecurityEvent) => f.All? || e.severity == f.severity
  }

  /** filteredEvents: the whole list for 'ALL', otherwise exactly the events of the
      chosen severity, in ledger order. */
  function FilteredEvents(events: seq<SecurityEvent>, f: SeverityFilter): (shown: seq<SecurityEvent>)
    ensures f.All? ==> shown == events
    ensures f.Only? ==> forall i :: 0 <= i < |shown| ==> shown[i].severity == f.severity
    ensures f.Only? ==> forall i :: 0 <= i < |events| && events[i].severity == f.severity ==> events[i] in shown
    ensures IsSubsequence(shown, events)
    ensures f.Only? ==> forall e :: multiset(shown)[e] == if e.severity == f.severity then multiset(events)[e] else 0
  {
    if f.All? then
      PrefixIsSubsequence(events, |events|);
      assert events[..|events|] == events;
      events
    else
      var shown := Filter(events, Matches(f));
      FilterIsSubsequence(events, Matches(f));
      forall i | 0 <= i < |events| && events[i].severity == f.severity
        ensures events[i] in shown
      {
        FilterMembership(events, Matches(f), events[i]);
      }
      forall e
        ensures multiset(shown)[e] == if e.severity == f.severity then multiset(events)[e] else 0
      {
        FilterMultiplicity(events, Matches(f), e);
      }
      shown
  }
}
