/** The two charts (src/components/ChartsPanel.jsx): events counted by severity into
    four fixed bars, and by type into one slice per distinct type. A `reduce` into an
    object is a list of (key, count) entries in the order the keys first appear, the
    order `Object.entries` reports them in. */
module Charts {
  import opened Common
  import opened Feed

  /** `keys.reduce((acc, k) => { acc[k] = (acc[k] || 0) + 1; return acc }, {})`: the
      accumulator object as a map from key to count. */
  function Tally(keys: seq<string>): (m: map<string, nat>)
    ensures forall k :: k in m <==> k in keys
    ensures forall k :: k in m ==> m[k] == Count(keys, k)
    decreases |keys|
  {
    if keys == [] then map[]
    else
      var m := Tally(keys[..|keys| - 1]);
      var k := keys[|keys| - 1];
      m[k := (if k in m then m[k] else 0) + 1]
  }

  /** `acc[k] || 0`. */
  function Lookup(m: map<string, nat>, k: string): (n: nat)
  {
    if k in m then m[k] else 0
  }

  /** Reading a tally gives the number of occurrences, zero for a key never seen. */
  lemma LookupTally(keys: seq<string>, k: string)
    ensures Lookup(Tally(keys), k) == Count(keys, k)
  {
  }

  /** The sum of the counts of the keys `d`. */
  function SumCounts(d: seq<string>, keys: seq<string>): nat
    decreases |d|
  {
    if d == [] then 0 else SumCounts(d[..|d| - 1], keys) + Count(keys, d[|d| - 1])
  }

  lemma {:induction false} SumCountsStep(d: seq<string>, init: seq<string>, k: string)
    requires NoDups(d)
    ensures SumCounts(d, init + [k]) == SumCounts(d, init) + (if k in d then 1 else 0)
    decreases |d|
  {
    var keys := init + [k];
    assert keys[..|keys| - 1] == init;
    if d != [] {
      var dinit := d[..|d| - 1];
      assert NoDups(dinit) by {
        assert forall i :: 0 <= i < |dinit| ==> dinit[i] == d[i];
      }
      SumCountsStep(dinit, init, k);
      assert k in d <==> k in dinit || k == d[|d| - 1];
      assert k == d[|d| - 1] ==> k !in dinit by {
        assert forall i :: 0 <= i < |dinit| ==> dinit[i] == d[i];
      }
    }
  }

  /** Over the distinct keys, in their order of first appearance, the counts add up to
      the number of keys. */
  lemma {:induction false} CountsCoverKeys(keys: seq<string>)
    ensures SumCounts(Distinct(keys), keys) == |keys|
    decreases |keys|
  {
    if keys != [] {
      var init, k := keys[..|keys| - 1], keys[|keys| - 1];
      assert keys == init + [k];
      CountsCoverKeys(init);
      var d := Distinct(init);
      SumCountsStep(d, init, k);
      if k !in d {
        assert (d + [k])[..|d|] == d;
        assert Count(init, k) == 0;
        assert Count(keys, k) == 1;
      }
    }
  }

  /** `e.severity || 'info'`. */
  function SeverityKey(e: ClientEvent): string
  {
    if e.severity != "" then e.severity else "info"
  }

  /** `e.event_type || e.type || 'traffic'`. */
  function TypeKey(e: ClientEvent): string
  {
    if e.eventType != "" then e.eventType else if e.msgType != "" then e.msgType else "traffic"
  }

  function SeverityKeys(events: seq<ClientEvent>): (r: seq<string>)
    ensures |r| == |events| && forall i :: 0 <= i < |events| ==> r[i] == SeverityKey(events[i])
  {
    seq(|events|, i requires 0 <= i < |events| => SeverityKey(events[i]))
  }

  function TypeKeys(events: seq<ClientEvent>): (r: seq<string>)
    ensures |r| == |events| && forall i :: 0 <= i < |events| ==> r[i] == TypeKey(events[i])
  {
    seq(|events|, i requires 0 <= i < |events| => TypeKey(events[i]))
  }

  /** `severityCounts` (src/components/ChartsPanel.jsx:6-10): the count of each
      severity; over its distinct severities the counts add up to the number of events. */
  lemma SeverityCountsTotal(events: seq<ClientEvent>)
    ensures var keys := SeverityKeys(events);
      SumCounts(Distinct(keys), keys) == |events|
      && forall k :: k in Tally(keys) ==> Tally(keys)[k] == Count(keys, k)
  {
    CountsCoverKeys(SeverityKeys(events));
  }

  /** A bar of the severity chart. */
  datatype Bar = Bar(name: string, count: nat, fill: string)

  function Shown(b: Bar): bool { b.count > 0 }

  /** The four bars before empty ones are dropped, in their fixed order. */
  function AllBars(t: map<string, nat>): seq<Bar>
  {
    [Bar("High", Lookup(t, "high"), "#ff4d4f"),
     Bar("Medium", Lookup(t, "medium"), "#ffa500"),
     Bar("Low", Lookup(t, "low"), "#ffd666"),
     Bar("Info", Lookup(t, "info"), "#69c0ba")]
  }

  /** `severityData` (src/components/ChartsPanel.jsx:12-17). */
  function SeverityData(events: seq<ClientEvent>): (r: seq<Bar>)
    ensures |r| <= 4
    ensures forall i :: 0 <= i < |r| ==> r[i].count > 0
  {
    Filter(AllBars(Tally(SeverityKeys(events))), Shown)
  }

  /** Each bar counts the events of its severity, an event without severity counting as
      info; a bar is shown exactly when its count is positive, and the shown bars keep
      the order High, Medium, Low, Info. */
  lemma SeverityDataFacts(events: seq<ClientEvent>)
    ensures var keys := SeverityKeys(events);
      SeverityData(events) == Filter([Bar("High", Count(keys, "high"), "#ff4d4f"),
                                      Bar("Medium", Count(keys, "medium"), "#ffa500"),
                                      Bar("Low", Count(keys, "low"), "#ffd666"),
                                      Bar("Info", Count(keys, "info"), "#69c0ba")], Shown)
  {
    var keys := SeverityKeys(events);
    LookupTally(keys, "high");
    LookupTally(keys, "medium");
    LookupTally(keys, "low");
    LookupTally(keys, "info");
  }

  function BarTotal(bars: seq<Bar>): nat
  {
    if bars == [] then 0 else BarTotal(bars[..|bars| - 1]) + bars[|bars| - 1].count
  }

  ghost predicate KnownSeverities(events: seq<ClientEvent>)
  {
    forall i :: 0 <= i < |events| ==> events[i].severity in {"high", "medium", "low", "info", ""}
  }

  /** When every event has one of the four severities, or none, the bars account for
      every event. */
  lemma BarsCoverEvents(events: seq<ClientEvent>)
    requires KnownSeverities(events)
    ensures BarTotal(SeverityData(events)) == |events|
  {
    var keys := SeverityKeys(events);
    SeverityDataFacts(events);
    FourWay(keys);
    FourBars(Count(keys, "high"), Count(keys, "medium"), Count(keys, "low"), Count(keys, "info"));
  }

  lemma FourBars(h: nat, m: nat, l: nat, i: nat)
    ensures BarTotal(Filter([Bar("High", h, "#ff4d4f"), Bar("Medium", m, "#ffa500"),
                             Bar("Low", l, "#ffd666"), Bar("Info", i, "#69c0ba")], Shown)) == h + m + l + i
  {
    var bars := [Bar("High", h, "#ff4d4f"), Bar("Medium", m, "#ffa500"),
                 Bar("Low", l, "#ffd666"), Bar("Info", i, "#69c0ba")];
    ShownTotal(bars);
    assert bars[..1][..0] == [];
    assert BarTotal(bars[..1]) == h;
    assert bars[..2][..1] == bars[..1];
    assert BarTotal(bars[..2]) == h + m;
    assert bars[..3][..2] == bars[..2];
    assert BarTotal(bars[..3]) == h + m + l;
    assert bars[..3] == bars[..|bars| - 1];
  }

  /** Dropping the empty bars does not change the total. */
  lemma {:induction false} ShownTotal(bars: seq<Bar>)
    ensures BarTotal(Filter(bars, Shown)) == BarTotal(bars)
    decreases |bars|
  {
    if bars != [] {
      var init, b := bars[..|bars| - 1], bars[|bars| - 1];
      ShownTotal(init);
      var f := Filter(init, Shown);
      assert Filter(bars, Shown) == f + (if Shown(b) then [b] else []);
      assert BarTotal(bars) == BarTotal(init) + b.count;
      if Shown(b) {
        assert (f + [b])[..|f + [b]| - 1] == f;
        assert BarTotal(f + [b]) == BarTotal(f) + b.count;
      } else {
        assert b.count == 0;
        assert f + [] == f;
      }
    }
  }

  /** Keys drawn from the four severities split their count among them. */
  lemma {:induction false} FourWay(keys: seq<string>)
    requires forall i :: 0 <= i < |keys| ==> keys[i] in {"high", "medium", "low", "info"}
    ensures Count(keys, "high") + Count(keys, "medium") + Count(keys, "low") + Count(keys, "info") == |keys|
    decreases |keys|
  {
    if keys != [] {
      var init := keys[..|keys| - 1];
      assert forall i :: 0 <= i < |init| ==> init[i] == keys[i];
      FourWay(init);
    }
  }

  /** `String.prototype.toUpperCase` on ASCII letters. */
  function UpperChar(c: char): char
  {
    if 'a' <= c <= 'z' then (c as int - 32) as char else c
  }

  function Upper(s: string): (r: string)
    ensures |r| == |s| && forall i :: 0 <= i < |s| ==> r[i] == UpperChar(s[i])
  {
    seq(|s|, i requires 0 <= i < |s| => UpperChar(s[i]))
  }

  /** A slice of the type chart. */
  datatype Slice = Slice(name: string, value: nat)

  /** `typeData` (src/components/ChartsPanel.jsx:20-29): `Object.entries` lists the
      type keys in order of first appearance, each named by its upper-cased key. */
  function TypeData(events: seq<ClientEvent>): (r: seq<Slice>)
    ensures var keys := Distinct(TypeKeys(events));
      && |r| == |keys|
      && forall i :: 0 <= i < |keys| ==> r[i] == Slice(Upper(keys[i]), Count(TypeKeys(events), keys[i]))
  {
    var keys := TypeKeys(events);
    var d := Distinct(keys);
    var m := Tally(keys);
    seq(|d|, i requires 0 <= i < |d| => Slice(Upper(d[i]), m[d[i]]))
  }

  function SliceTotal(s: seq<Slice>): nat
    decreases |s|
  {
    if s == [] then 0 else SliceTotal(s[..|s| - 1]) + s[|s| - 1].value
  }

  lemma {:induction false} SliceTotalIsSum(s: seq<Slice>, d: seq<string>, keys: seq<string>)
    requires |s| == |d| && forall i :: 0 <= i < |d| ==> s[i].value == Count(keys, d[i])
    ensures SliceTotal(s) == SumCounts(d, keys)
    decreases |s|
  {
    if s != [] {
      SliceTotalIsSum(s[..|s| - 1], d[..|d| - 1], keys);
    }
  }

  /** The slices account for every event, each exactly once. */
  lemma TypeDataTotal(events: seq<ClientEvent>)
    ensures SliceTotal(TypeData(events)) == |events|
  {
    var keys := TypeKeys(events);
    SliceTotalIsSum(TypeData(events), Distinct(keys), keys);
    CountsCoverKeys(keys);
  }

  /** Type keys that differ only in case are separate keys, each with its own slice
      counting its own events, and the two slices carry the same name. */
  lemma CaseVariantsShareName(events: seq<ClientEvent>, i: int, j: int)
    requires var d := Distinct(TypeKeys(events));
      0 <= i < j < |d| && Upper(d[i]) == Upper(d[j])
    ensures var d := Distinct(TypeKeys(events));
      var t := TypeData(events);
      && d[i] != d[j]
      && t[i].name == t[j].name
      && t[i].value == Count(TypeKeys(events), d[i]) > 0
      && t[j].value == Count(TypeKeys(events), d[j]) > 0
  {
  }

  /** Such keys exist: "http" and "HTTP" are different keys with the same name. */
  lemma HttpCaseVariants()
    ensures Upper("http") == Upper("HTTP") && "http" != "HTTP"
  {
  }
}
