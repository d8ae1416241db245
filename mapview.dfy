/** The map's markers (src/components/MapView.jsx): one marker per source address with
    a usable position, the latest event of that address, at most 100, and the colour of
    each marker. */
module MapView {
  import opened Common
  import opened Feed

  /** Most markers drawn. */
  const MarkerCap: nat := 100

  /** `e.geo && e.geo.lat !== 0 && e.geo.lon !== 0`. */
  predicate Placeable(e: ClientEvent)
  {
    e.geo.Some? && e.geo.value.lat != 0.0 && e.geo.value.lon != 0.0
  }

  /** The event replaces the one kept for its address: none is kept yet, or the kept one
      is strictly older. */
  predicate Supersedes(m: map<string, ClientEvent>, e: ClientEvent)
  {
    Placeable(e) && (e.src !in m || m[e.src].ts < e.ts)
  }

  /** `ipMap` after the `forEach` has visited `events`. */
  function MarkerMap(events: seq<ClientEvent>): (m: map<string, ClientEvent>)
    decreases |events|
  {
    if events == [] then map[]
    else
      var m := MarkerMap(events[..|events| - 1]);
      var e := events[|events| - 1];
      if Supersedes(m, e) then m[e.src := e] else m
  }

  /** The keys of `ipMap` in insertion order: a `Map` keeps the position of a key when
      its value is replaced. */
  function MarkerOrder(events: seq<ClientEvent>): (o: seq<string>)
    decreases |events|
  {
    if events == [] then []
    else
      var o := MarkerOrder(events[..|events| - 1]);
      var e := events[|events| - 1];
      if Placeable(e) && e.src !in MarkerMap(events[..|events| - 1]) then o + [e.src] else o
  }

  lemma {:induction false} OrderIsKeys(events: seq<ClientEvent>)
    ensures NoDups(MarkerOrder(events))
    ensures forall i :: 0 <= i < |MarkerOrder(events)| ==> MarkerOrder(events)[i] in MarkerMap(events)
    ensures forall ip :: ip in MarkerMap(events) ==> ip in MarkerOrder(events)
    decreases |events|
  {
    if events != [] {
      OrderIsKeys(events[..|events| - 1]);
    }
  }

  /** `Array.from(ipMap.values()).slice(0, 100)`. */
  function MarkerList(events: seq<ClientEvent>): (r: seq<ClientEvent>)
    ensures |r| == Min(MarkerCap, |MarkerOrder(events)|)
  {
    OrderIsKeys(events);
    var order := MarkerOrder(events);
    var m := MarkerMap(events);
    Take(seq(|order|, k requires 0 <= k < |order| => m[order[k]]), MarkerCap)
  }

  /** The `markers` memo (src/components/MapView.jsx:6-20). */
  method Markers(events: seq<ClientEvent>) returns (markers: seq<ClientEvent>)
    ensures markers == MarkerList(events)
  {
    var ipMap: map<string, ClientEvent> := map[];
    var order: seq<string> := [];
    for i := 0 to |events|
      invariant ipMap == MarkerMap(events[..i])
      invariant order == MarkerOrder(events[..i])
    {
      assert events[..i + 1][..i] == events[..i];
      var e := events[i];
      if Placeable(e) {
        if e.src !in ipMap || ipMap[e.src].ts < e.ts {
          if e.src !in ipMap {
            order := order + [e.src];
          }
          ipMap := ipMap[e.src := e];
        }
      }
    }
    assert events[..|events|] == events;
    OrderIsKeys(events);
    markers := Take(seq(|order|, k requires 0 <= k < |order| => ipMap[order[k]]), MarkerCap);
  }

  /** The marker kept for an address is a placeable event of that address, its time is
      the latest among them, and it is the first of them with that time. */
  lemma {:induction false} KeptIsLatest(events: seq<ClientEvent>, ip: string) returns (k: nat)
    requires ip in MarkerMap(events)
    ensures k < |events| && events[k] == MarkerMap(events)[ip]
    ensures Placeable(events[k]) && events[k].src == ip
    ensures forall j :: 0 <= j < k && Placeable(events[j]) && events[j].src == ip ==> events[j].ts < events[k].ts
    ensures forall j :: k < j < |events| && Placeable(events[j]) && events[j].src == ip ==> events[j].ts <= events[k].ts
    decreases |events|
  {
    var init, e := events[..|events| - 1], events[|events| - 1];
    var m := MarkerMap(init);
    if Supersedes(m, e) && e.src == ip {
      k := |events| - 1;
      if ip in m {
        var k0 := KeptIsLatest(init, ip);
        assert forall j :: 0 <= j < |init| ==> init[j] == events[j];
      } else {
        forall j | 0 <= j < |init| && Placeable(init[j]) ensures init[j].src in m {
          KeyedOnce(init, j);
        }
        assert forall j :: 0 <= j < |init| ==> init[j] == events[j];
      }
    } else {
      k := KeptIsLatest(init, ip);
      assert forall j :: 0 <= j < |init| ==> init[j] == events[j];
    }
  }

  /** Every placeable event's address has a kept marker. */
  lemma {:induction false} KeyedOnce(events: seq<ClientEvent>, j: int)
    requires 0 <= j < |events| && Placeable(events[j])
    ensures events[j].src in MarkerMap(events)
    decreases |events|
  {
    if j < |events| - 1 {
      KeyedOnce(events[..|events| - 1], j);
    }
  }

  /** An address has a marker exactly when one of its events is placeable. */
  lemma MarkedIffPlaceable(events: seq<ClientEvent>, ip: string)
    ensures ip in MarkerMap(events) <==> exists j :: 0 <= j < |events| && Placeable(events[j]) && events[j].src == ip
  {
    if ip in MarkerMap(events) {
      var k := KeptIsLatest(events, ip);
    }
    forall j | 0 <= j < |events| && Placeable(events[j]) && events[j].src == ip
      ensures ip in MarkerMap(events)
    {
      KeyedOnce(events, j);
    }
  }

  /** The addresses of the placeable events, in order. */
  function PlaceableSources(events: seq<ClientEvent>): (r: seq<string>)
    ensures |r| <= |events|
    decreases |events|
  {
    if events == [] then []
    else
      var e := events[|events| - 1];
      PlaceableSources(events[..|events| - 1]) + (if Placeable(e) then [e.src] else [])
  }

  /** The markers come in the order in which their addresses first appear. */
  lemma {:induction false} OrderIsFirstAppearance(events: seq<ClientEvent>)
    ensures MarkerOrder(events) == Distinct(PlaceableSources(events))
    decreases |events|
  {
    if events != [] {
      var init, e := events[..|events| - 1], events[|events| - 1];
      OrderIsFirstAppearance(init);
      var srcs := PlaceableSources(init);
      if Placeable(e) {
        assert PlaceableSources(events) == srcs + [e.src];
        assert (srcs + [e.src])[..|srcs + [e.src]| - 1] == srcs;
        SourcesMarked(init, e.src);
      } else {
        assert PlaceableSources(events) == srcs;
      }
    }
  }

  /** An address is among the placeable sources exactly when it has a marker. */
  lemma {:induction false} SourcesMarked(events: seq<ClientEvent>, ip: string)
    ensures ip in Distinct(PlaceableSources(events)) <==> ip in MarkerMap(events)
    decreases |events|
  {
    if events != [] {
      var init, e := events[..|events| - 1], events[|events| - 1];
      SourcesMarked(init, ip);
      var d := Distinct(PlaceableSources(init));
      assert ip in Distinct(PlaceableSources(events)) <==> ip in d || (Placeable(e) && e.src == ip) by {
        assert forall i :: 0 <= i < |d| ==> d[i] in PlaceableSources(init);
        assert forall i :: 0 <= i < |PlaceableSources(init)| ==> PlaceableSources(init)[i] in d;
        if Placeable(e) {
          assert PlaceableSources(events) == PlaceableSources(init) + [e.src];
        }
      }
    }
  }

  /** What the markers are: at most 100, for distinct addresses, the first 100 addresses
      with a placeable event in order of first appearance, each the latest placeable
      event of its address. */
  lemma MarkersFacts(events: seq<ClientEvent>)
    ensures var r := MarkerList(events);
      && |r| <= MarkerCap
      && (forall i, j :: 0 <= i < j < |r| ==> r[i].src != r[j].src)
      && |r| == |Take(Distinct(PlaceableSources(events)), MarkerCap)|
      && (forall i :: 0 <= i < |r| ==> r[i].src == Take(Distinct(PlaceableSources(events)), MarkerCap)[i])
      && (forall i :: 0 <= i < |r| ==> Placeable(r[i]) && r[i] in events)
      && (forall i, j :: 0 <= i < |r| && 0 <= j < |events| && Placeable(events[j]) && events[j].src == r[i].src ==>
            events[j].ts <= r[i].ts)
  {
    var r := MarkerList(events);
    var order := MarkerOrder(events);
    var m := MarkerMap(events);
    OrderIsKeys(events);
    OrderIsFirstAppearance(events);
    forall i | 0 <= i < |r|
      ensures r[i] == m[order[i]] && r[i].src == order[i] && Placeable(r[i]) && r[i] in events
      ensures forall j :: 0 <= j < |events| && Placeable(events[j]) && events[j].src == r[i].src ==> events[j].ts <= r[i].ts
    {
      var k := KeptIsLatest(events, order[i]);
    }
  }

  /** `m.severity || 'low'`, then red for high, orange for medium, cyan otherwise
      (src/components/MapView.jsx:29-30). */
  function MarkerColour(severity: string): (c: string)
    ensures c == "#ff5252" <==> severity == "high"
    ensures c == "#ffa726" <==> severity == "medium"
    ensures c == "#00f6d8" <==> severity != "high" && severity != "medium"
  {
    var s := if severity != "" then severity else "low";
    if s == "high" then "#ff5252" else if s == "medium" then "#ffa726" else "#00f6d8"
  }

  /** A marker without severity is drawn like a low one. */
  lemma MissingSeverityIsLow()
    ensures MarkerColour("") == MarkerColour("low")
  {
  }
}
