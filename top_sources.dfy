/** The "top sources" table: events grouped by source address, busiest first. */
module TopSources {
  import opened Seqs
  import opened Numeric
  import opened UiTypes

  /** One row of the table. */
  datatype SourceGroup = SourceGroup(ip: string, country: string, count: nat, severity: Severity)

  function Ips(events: seq<SecurityEvent>): (ips: seq<string>)
    ensures |ips| == |events| && forall i :: 0 <= i < |events| ==> ips[i] == events[i].sourceIp
  {
    seq(|events|, i requires 0 <= i < |events| => events[i].sourceIp)
  }

  /** The reducer's step: open a group on an address's first event, count the event,
      and mark the group CRITICAL once any of its events is. */
  function Step(acc: map<string, SourceGroup>, curr: SecurityEvent): map<string, SourceGroup> {
    var g := if curr.sourceIp in acc then acc[curr.sourceIp]
             else SourceGroup(curr.sourceIp, curr.country, 0, curr.severity);
    var counted := g.(count := g.count + 1);
    acc[curr.sourceIp := if curr.severity == Critical then counted.(severity := Critical) else counted]
  }

  /** The accumulator after the reduce has consumed `events` from the left. */
  function Groups(events: seq<SecurityEvent>): map<string, SourceGroup>
    decreases |events|
  {
    if |events| == 0 then map[] else Step(Groups(events[..|events| - 1]), events[|events| - 1])
  }

  /** Some event from ip is CRITICAL. */
  predicate HasCritical(events: seq<SecurityEvent>, ip: string) {
    exists i :: 0 <= i < |events| && events[i].sourceIp == ip && events[i].severity == Critical
  }

  /** The groups are keyed by exactly the addresses that occur. */
  lemma {:induction false} GroupsDomain(events: seq<SecurityEvent>)
    ensures forall ip :: ip in Groups(events) <==> ip in Ips(events)
    decreases |events|
  {
    if |events| > 0 {
      var p := events[..|events| - 1];
      GroupsDomain(p);
      assert Ips(events) == Ips(p) + [events[|events| - 1].sourceIp];
    }
  }

  /** The last event adds to the CRITICAL evidence for its own address only. */
  lemma HasCriticalLast(events: seq<SecurityEvent>, ip: string)
    requires |events| > 0
    ensures var p, e := events[..|events| - 1], events[|events| - 1];
      HasCritical(events, ip) <==> HasCritical(p, ip) || (e.sourceIp == ip && e.severity == Critical)
  {
    var p := events[..|events| - 1];
    if HasCritical(p, ip) {
      var i :| 0 <= i < |p| && p[i].sourceIp == ip && p[i].severity == Critical;
      assert events[i] == p[i];
    }
    if HasCritical(events, ip) {
      var i :| 0 <= i < |events| && events[i].sourceIp == ip && events[i].severity == Critical;
      if i < |p| {
        assert p[i] == events[i];
      }
    }
  }

  /** What a group holds: the address, the country of its first event, the number
      of its events, and CRITICAL if any of them is, else the first event's severity. */
  lemma {:induction false} GroupOf(events: seq<SecurityEvent>, ip: string, first: nat)
    requires first < |events| && events[first].sourceIp == ip
    requires forall j :: 0 <= j < first ==> events[j].sourceIp != ip
    ensures ip in Groups(events)
    ensures Groups(events)[ip] == SourceGroup(ip, events[first].country, multiset(Ips(events))[ip],
      if HasCritical(events, ip) then Critical else events[first].severity)
    decreases |events|
  {
    var p, e := events[..|events| - 1], events[|events| - 1];
    assert Ips(events) == Ips(p) + [e.sourceIp];
    HasCriticalLast(events, ip);
    if first == |events| - 1 {
      GroupsDomain(p);
      assert ip !in Ips(p);
      assert !HasCritical(p, ip);
    } else {
      GroupOf(p, ip, first);
    }
  }

  /** `Object.values(acc)` for the keys in insertion order. */
  function ValuesOf(keys: seq<string>, acc: map<string, SourceGroup>): (gs: seq<SourceGroup>)
    requires forall k :: 0 <= k < |keys| ==> keys[k] in acc
    ensures |gs| == |keys| && forall k :: 0 <= k < |keys| ==> gs[k] == acc[keys[k]]
  {
    if |keys| == 0 then [] else [acc[keys[0]]] + ValuesOf(keys[1..], acc)
  }

  /** One reducer step (from the first i events to the first next = i + 1), on the
      accumulator and on the key order. */
  lemma GroupsStep(events: seq<SecurityEvent>, i: nat, next: nat)
    requires next == i + 1 && next <= |events|
    ensures Groups(events[..next]) == Step(Groups(events[..i]), events[i])
    ensures DistinctKeys(Ips(events[..next])) ==
      var d := DistinctKeys(Ips(events[..i]));
      if events[i].sourceIp in d then d else d + [events[i].sourceIp]
    ensures events[i].sourceIp in DistinctKeys(Ips(events[..i])) <==> events[i].sourceIp in Groups(events[..i])
  {
    assert events[..next][..i] == events[..i];
    assert Ips(events[..next])[..i] == Ips(events[..i]);
    GroupsDomain(events[..i]);
  }

  /** sourceGroups: the reduce over the events, returning the groups in the order
      their addresses first occur. */
  method GroupSources(events: seq<SecurityEvent>) returns (groups: seq<SourceGroup>)
    ensures groups == SourceGroups(events)
  {
    var acc: map<string, SourceGroup> := map[];
    var keys: seq<string> := [];
    var i := 0;
    while i < |events|
      invariant 0 <= i <= |events|
      invariant acc == Groups(events[..i])
      invariant keys == DistinctKeys(Ips(events[..i]))
    {
      var curr := events[i];
      var next := i + 1;
      GroupsStep(events, i, next);
      var isNew := curr.sourceIp !in acc;
      var g := if isNew then SourceGroup(curr.sourceIp, curr.country, 0, curr.severity) else acc[curr.sourceIp];
      if isNew {
        keys := keys + [curr.sourceIp];
      }
      g := g.(count := g.count + 1);
      if curr.severity == Critical {
        g := g.(severity := Critical);
      }
      acc := acc[curr.sourceIp := g];
      i := next;
    }
    assert events[..i] == events;
    GroupsDomain(events);
    groups := ValuesOf(keys, acc);
  }

  /** Every group's count is the number of events from its address, and together
      the groups account for every event. */
  function SumCounts(gs: seq<SourceGroup>): nat {
    if |gs| == 0 then 0 else gs[0].count + SumCounts(gs[1..])
  }

  lemma {:induction false} SumCountsValues(keys: seq<string>, events: seq<SecurityEvent>)
    requires forall k :: 0 <= k < |keys| ==> keys[k] in Ips(events)
    ensures forall k :: 0 <= k < |keys| ==> keys[k] in Groups(events)
    ensures SumCounts(ValuesOf(keys, Groups(events))) == SumOfCounts(keys, Ips(events))
    decreases |keys|
  {
    GroupsDomain(events);
    if |keys| > 0 {
      SumCountsValues(keys[1..], events);
      var ip := keys[0];
      var first := FirstIndex(Ips(events), ip);
      GroupOf(events, ip, first);
      assert ValuesOf(keys, Groups(events))[1..] == ValuesOf(keys[1..], Groups(events));
    }
  }

  function FirstIndex(s: seq<string>, x: string): (i: nat)
    requires x in s
    ensures i < |s| && s[i] == x && forall j :: 0 <= j < i ==> s[j] != x
  {
    if s[0] == x then 0 else 1 + FirstIndex(s[1..], x)
  }

  /** The groups in the order their addresses first occur (`Object.values`): one
      per distinct address, together accounting for every event. */
  function SourceGroups(events: seq<SecurityEvent>): (groups: seq<SourceGroup>)
    ensures |groups| == |DistinctKeys(Ips(events))|
    ensures forall k :: 0 <= k < |groups| ==> groups[k].ip == DistinctKeys(Ips(events))[k]
    ensures SumCounts(groups) == |events|
  {
    var keys := DistinctKeys(Ips(events));
    KeysGrouped(events);
    SumCountsValues(keys, events);
    DistinctKeysCountsSum(Ips(events));
    ValuesOf(keys, Groups(events))
  }

  /** Every address that occurs keys a group carrying that address. */
  lemma KeysGrouped(events: seq<SecurityEvent>)
    ensures forall k :: 0 <= k < |DistinctKeys(Ips(events))| ==>
      DistinctKeys(Ips(events))[k] in Groups(events) &&
      Groups(events)[DistinctKeys(Ips(events))[k]].ip == DistinctKeys(Ips(events))[k]
  {
    var keys := DistinctKeys(Ips(events));
    forall k | 0 <= k < |keys|
      ensures keys[k] in Groups(events) && Groups(events)[keys[k]].ip == keys[k]
    {
      GroupOf(events, keys[k], FirstIndex(Ips(events), keys[k]));
    }
  }

  /** Each group, described against the events it came from. */
  lemma GroupContents(events: seq<SecurityEvent>, ip: string)
    requires ip in Ips(events)
    ensures ip in Groups(events)
    ensures var g := Groups(events)[ip];
      var first := FirstIndex(Ips(events), ip);
      g.ip == ip && g.count == multiset(Ips(events))[ip] && g.count >= 1 &&
      g.country == events[first].country &&
      (g.severity == Critical <==> HasCritical(events, ip)) &&
      (!HasCritical(events, ip) ==> g.severity == events[first].severity)
  {
    var first := FirstIndex(Ips(events), ip);
    GroupOf(events, ip, first);
  }

  /** `b.count - a.count` ordering: non-increasing counts. */
  predicate SortedByCount(gs: seq<SourceGroup>) {
    forall i, j :: 0 <= i < j < |gs| ==> gs[i].count >= gs[j].count
  }

  /** Insert g before the first group whose count is not above it. */
  function InsertByCount(g: SourceGroup, sorted: seq<SourceGroup>): (r: seq<SourceGroup>)
    ensures |r| == |sorted| + 1
    ensures multiset(r) == multiset(sorted) + multiset{g}
  {
    if |sorted| == 0 then [g]
    else if sorted[0].count <= g.count then [g] + sorted
    else
      assert sorted == [sorted[0]] + sorted[1..];
      [sorted[0]] + InsertByCount(g, sorted[1..])
  }

  lemma {:induction false} InsertSorted(g: SourceGroup, sorted: seq<SourceGroup>)
    requires SortedByCount(sorted)
    ensures SortedByCount(InsertByCount(g, sorted))
    decreases |sorted|
  {
    if |sorted| > 0 && sorted[0].count > g.count {
      var rest := InsertByCount(g, sorted[1..]);
      InsertSorted(g, sorted[1..]);
      forall k | 0 <= k < |rest|
        ensures rest[k].count <= sorted[0].count
      {
        assert rest[k] in multiset(rest);
        if rest[k] != g {
          assert rest[k] in multiset(sorted[1..]);
        }
      }
    }
  }

  /** The rows in order of decreasing count. */
  function SortByCount(gs: seq<SourceGroup>): (r: seq<SourceGroup>)
    ensures SortedByCount(r)
    ensures multiset(r) == multiset(gs)
  {
    if |gs| == 0 then []
    else
      assert gs == [gs[0]] + gs[1..];
      InsertSorted(gs[0], SortByCount(gs[1..]));
      InsertByCount(gs[0], SortByCount(gs[1..]))
  }

  /** sorted: the six busiest groups, busiest first. */
  function TopRows(groups: seq<SourceGroup>): (rows: seq<SourceGroup>)
    ensures |rows| == Min(6, |groups|)
    ensures SortedByCount(rows)
    ensures forall i :: 0 <= i < |rows| ==> rows[i] in groups
    ensures forall g :: g in groups && g !in rows ==> forall i :: 0 <= i < |rows| ==> rows[i].count >= g.count
    ensures multiset(rows) <= multiset(groups)
  {
    var s := SortByCount(groups);
    assert |s| == |groups| by {
      assert |multiset(s)| == |multiset(groups)|;
    }
    var rows := Take(s, 6);
    SortedPrefix(groups, s, |rows|);
    assert rows == s[..|rows|];
    PrefixSubMultiset(s, |rows|);
    rows
  }

  /** A prefix holds each element at most as often as the whole. */
  lemma PrefixSubMultiset(s: seq<SourceGroup>, n: nat)
    requires n <= |s|
    ensures multiset(s[..n]) <= multiset(s)
  {
    assert s == s[..n] + s[n..];
  }

  /** A prefix of a sorted permutation holds members only, none below what it leaves out. */
  lemma SortedPrefix(groups: seq<SourceGroup>, s: seq<SourceGroup>, n: nat)
    requires SortedByCount(s) && multiset(s) == multiset(groups) && n <= |s|
    ensures forall i :: 0 <= i < n ==> s[i] in groups
    ensures forall g :: g in groups && g !in s[..n] ==> forall i :: 0 <= i < n ==> s[i].count >= g.count
  {
    forall i | 0 <= i < n ensures s[i] in groups {
      assert s[i] in multiset(s);
    }
    forall g | g in groups && g !in s[..n]
      ensures forall i :: 0 <= i < n ==> s[i].count >= g.count
    {
      forall i | 0 <= i < n ensures s[i] != g {
        assert s[i] == s[..n][i];
      }
      assert g in multiset(s);
      var j :| 0 <= j < |s| && s[j] == g;
      assert j >= n;
    }
  }

  /** The whole table: group, sort and keep six. */
  method TopSourceRows(events: seq<SecurityEvent>) returns (rows: seq<SourceGroup>)
    ensures rows == TopRows(SourceGroups(events))
  {
    var groups := GroupSources(events);
    rows := TopRows(groups);
  }

  /** The width of a row's volume bar, in percent: ten events fill it. */
  function BarWidth(count: nat): (w: real)
    ensures 0.0 <= w <= 100.0
    ensures count >= 10 ==> w == 100.0
    ensures count < 10 ==> w == count as real * 10.0
  {
    MinReal(100.0, (count as real / 10.0) * 100.0)
  }
}
