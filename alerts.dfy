/** The alerts panel (src/components/AlertsPanel.jsx): the first five high and the first
    five medium events of the list. */
module Alerts {
  import opened Common
  import opened Feed
  import Charts

  /** Most alerts listed per severity. */
  const AlertCap: nat := 5

  function IsHigh(e: ClientEvent): bool { e.severity == "high" }

  function IsMedium(e: ClientEvent): bool { e.severity == "medium" }

  /** `events.filter(e => e.severity === 'high').slice(0, 5)`. */
  function HighAlerts(events: seq<ClientEvent>): (r: seq<ClientEvent>)
    ensures |r| == Min(AlertCap, |Filter(events, IsHigh)|)
    ensures forall i :: 0 <= i < |r| ==> r[i] == Filter(events, IsHigh)[i]
  {
    Take(Filter(events, IsHigh), AlertCap)
  }

  /** `events.filter(e => e.severity === 'medium').slice(0, 5)`. */
  function MediumAlerts(events: seq<ClientEvent>): (r: seq<ClientEvent>)
    ensures |r| == Min(AlertCap, |Filter(events, IsMedium)|)
    ensures forall i :: 0 <= i < |r| ==> r[i] == Filter(events, IsMedium)[i]
  {
    Take(Filter(events, IsMedium), AlertCap)
  }

  /** Both lists hold at most five events of their own severity, taken from the list. */
  lemma AlertListsShape(events: seq<ClientEvent>)
    ensures |HighAlerts(events)| <= AlertCap && |MediumAlerts(events)| <= AlertCap
    ensures forall i :: 0 <= i < |HighAlerts(events)| ==>
      HighAlerts(events)[i].severity == "high" && HighAlerts(events)[i] in events
    ensures forall i :: 0 <= i < |MediumAlerts(events)| ==>
      MediumAlerts(events)[i].severity == "medium" && MediumAlerts(events)[i] in events
  {
    FilterMembers(events, IsHigh);
    FilterMembers(events, IsMedium);
  }

  /** No event is listed under both severities. */
  lemma AlertListsDisjoint(events: seq<ClientEvent>)
    ensures forall i, j :: 0 <= i < |HighAlerts(events)| && 0 <= j < |MediumAlerts(events)| ==>
      HighAlerts(events)[i] != MediumAlerts(events)[j]
  {
  }

  /** An event that is high but not listed is beyond the first five high ones: the list
      is full and the event stands after its last entry among the high events. */
  lemma UnlistedHighComesLater(events: seq<ClientEvent>, k: int) returns (j: int)
    requires 0 <= k < |events| && IsHigh(events[k]) && events[k] !in HighAlerts(events)
    ensures |HighAlerts(events)| == AlertCap
    ensures AlertCap <= j < |Filter(events, IsHigh)| && Filter(events, IsHigh)[j] == events[k]
  {
    var f := Filter(events, IsHigh);
    FilterMembers(events, IsHigh);
    assert events[k] in f;
    j :| 0 <= j < |f| && f[j] == events[k];
    assert j >= |HighAlerts(events)| by {
      assert forall i :: 0 <= i < |HighAlerts(events)| ==> HighAlerts(events)[i] in HighAlerts(events);
    }
  }

  /** There are as many high events as the severity chart counts under "high". */
  lemma {:induction false} FilterCountsKey(events: seq<ClientEvent>, sev: string)
    requires sev != "" && sev != "info"
    ensures |Filter(events, (e: ClientEvent) => e.severity == sev)| == Count(Charts.SeverityKeys(events), sev)
    decreases |events|
  {
    if events != [] {
      var init := events[..|events| - 1];
      FilterCountsKey(init, sev);
      var keys := Charts.SeverityKeys(events);
      assert keys[..|keys| - 1] == Charts.SeverityKeys(init);
    }
  }

  /** The alert panel and the severity chart agree: the high list is empty exactly when
      the chart shows no High bar, and otherwise lists min(5, that bar's count) events;
      likewise for medium. */
  lemma AlertsMatchChart(events: seq<ClientEvent>)
    ensures |HighAlerts(events)| == Min(AlertCap, Count(Charts.SeverityKeys(events), "high"))
    ensures |MediumAlerts(events)| == Min(AlertCap, Count(Charts.SeverityKeys(events), "medium"))
  {
    FilterCountsKey(events, "high");
    FilterCountsKey(events, "medium");
    assert Filter(events, IsHigh) == Filter(events, (e: ClientEvent) => e.severity == "high") by {
      FilterSame(events, IsHigh, (e: ClientEvent) => e.severity == "high");
    }
    assert Filter(events, IsMedium) == Filter(events, (e: ClientEvent) => e.severity == "medium") by {
      FilterSame(events, IsMedium, (e: ClientEvent) => e.severity == "medium");
    }
  }
}
