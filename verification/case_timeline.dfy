/**
 * The litigation timeline: events grouped by the year at the end of their
 * date, groups in the order their year first appears, and the set of
 * expanded years that a click toggles.
 */
module CaseTimeline {
  import opened Common

  datatype EventType = Filing | Verdict | Settlement | Regulatory | Mdl

  datatype TimelineEvent = TimelineEvent(date: string, title: string, description: string, outcome: Option<string>, kind: EventType)

  datatype YearGroup = YearGroup(year: string, events: seq<TimelineEvent>)

  /** `s.split(' ').pop()`: the characters after the last space. */
  function LastToken(s: string): (r: string)
    ensures |r| <= |s|
    ensures r == "" <==> |s| == 0 || s[|s| - 1] == ' '
  {
    if |s| == 0 || s[|s| - 1] == ' ' then "" else LastToken(s[..|s| - 1]) + [s[|s| - 1]]
  }

  /** `date.split(' ').pop() || ''`: the last space-separated token of the date. */
  function YearOf(e: TimelineEvent): string {
    LastToken(e.date)
  }

  /** The year is the space-free suffix of the date that follows its last space. */
  lemma {:induction false} LastTokenIsSuffix(s: string)
    ensures EndsWith(s, LastToken(s)) && ' ' !in LastToken(s)
    ensures |LastToken(s)| < |s| ==> s[|s| - |LastToken(s)| - 1] == ' '
  {
    if |s| > 0 && s[|s| - 1] != ' ' {
      var init, c := s[..|s| - 1], s[|s| - 1];
      LastTokenIsSuffix(init);
      var t := LastToken(init);
      var u := LastToken(s);
      assert u == t + [c];
      var k := |init| - |t|;
      assert s == init + [c];
      assert s[k..] == init[k..] + [c];
      assert ' ' !in u by {
        assert forall x :: x in u ==> x in t || x == c;
      }
      if |t| < |init| {
        assert s[k - 1] == init[k - 1];
      }
    }
  }

  /** Each event with its year: the grouping below never needs to look inside a date again. */
  function Tagged(events: seq<TimelineEvent>): (r: seq<(string, TimelineEvent)>)
    ensures |r| == |events|
  {
    seq(|events|, i requires 0 <= i < |events| => (YearOf(events[i]), events[i]))
  }

  /** The distinct years, in the order each first appears. */
  function Years(ps: seq<(string, TimelineEvent)>): seq<string> {
    if |ps| == 0 then []
    else
      var init := Years(ps[..|ps| - 1]);
      var y := ps[|ps| - 1].0;
      if y in init then init else init + [y]
  }

  /** The events of year `y`, in input order. */
  function EventsIn(ps: seq<(string, TimelineEvent)>, y: string): (r: seq<TimelineEvent>)
    ensures |r| <= |ps|
  {
    if |ps| == 0 then []
    else EventsIn(ps[..|ps| - 1], y) + (if ps[|ps| - 1].0 == y then [ps[|ps| - 1].1] else [])
  }

  /** The reference grouping: one group per distinct year, in first-occurrence order. */
  function YearGroups(events: seq<TimelineEvent>): (r: seq<YearGroup>)
    ensures var ps := Tagged(events);
      && |r| == |Years(ps)|
      && forall i :: 0 <= i < |r| ==> r[i] == YearGroup(Years(ps)[i], EventsIn(ps, Years(ps)[i]))
  {
    var ps := Tagged(events);
    var years := Years(ps);
    seq(|years|, i requires 0 <= i < |years| => YearGroup(years[i], EventsIn(ps, years[i])))
  }

  /**
   * The `events.forEach` pass of `groupEventsByYear`, filling a JavaScript
   * `Map`: `order` is its key order (a `Map` iterates in insertion order),
   * `yearMap` its contents.
   */
  method FillYearMap(events: seq<TimelineEvent>) returns (order: seq<string>, yearMap: map<string, seq<TimelineEvent>>)
    ensures order == Years(Tagged(events))
    ensures forall y :: y in yearMap <==> y in order
    ensures forall y :: y in yearMap ==> yearMap[y] == EventsIn(Tagged(events), y)
  {
    ghost var ps := Tagged(events);
    order := [];
    yearMap := map[];
    var i := 0;
    while i < |events|
      invariant 0 <= i <= |events|
      invariant order == Years(ps[..i])
      invariant forall y :: y in yearMap <==> y in order
      invariant forall y :: y in yearMap ==> yearMap[y] == EventsIn(ps[..i], y)
    {
      order, yearMap := AddEvent(ps, i, order, yearMap, events[i]);
      i := i + 1;
    }
    assert ps[..i] == ps;
  }

  /** One `forEach` step: the event at `i` is pushed onto its year's list, creating the list on first sight. */
  method AddEvent(ghost ps: seq<(string, TimelineEvent)>, ghost i: nat, order: seq<string>,
                  yearMap: map<string, seq<TimelineEvent>>, event: TimelineEvent)
    returns (order': seq<string>, yearMap': map<string, seq<TimelineEvent>>)
    requires i < |ps| && ps[i] == (YearOf(event), event)
    requires order == Years(ps[..i])
    requires forall y :: y in yearMap <==> y in order
    requires forall y :: y in yearMap ==> yearMap[y] == EventsIn(ps[..i], y)
    ensures order' == Years(ps[..i + 1])
    ensures forall y :: y in yearMap' <==> y in order'
    ensures forall y :: y in yearMap' ==> yearMap'[y] == EventsIn(ps[..i + 1], y)
  {
    var year := YearOf(event);
    YearsStep(ps, i);
    order', yearMap' := order, yearMap;
    if year !in yearMap' {
      EventsInNone(ps[..i], year);
      yearMap' := yearMap'[year := []];
      order' := order' + [year];
    }
    yearMap' := yearMap'[year := yearMap'[year] + [event]];
    forall y | y in yearMap'
      ensures yearMap'[y] == EventsIn(ps[..i + 1], y)
    {
      EventsInStep(ps, i, y);
    }
  }

  /** `groupEventsByYear`: one group per entry of the filled `Map`, in its order. */
  method GroupEventsByYear(events: seq<TimelineEvent>) returns (yearGroups: seq<YearGroup>)
    ensures yearGroups == YearGroups(events)
  {
    var order, yearMap := FillYearMap(events);
    yearGroups := [];
    var k := 0;
    while k < |order|
      invariant 0 <= k <= |order|
      invariant |yearGroups| == k
      invariant forall j :: 0 <= j < k ==> yearGroups[j] == YearGroup(order[j], yearMap[order[j]])
    {
      yearGroups := yearGroups + [YearGroup(order[k], yearMap[order[k]])];
      k := k + 1;
    }
  }

  lemma YearsStep(ps: seq<(string, TimelineEvent)>, i: nat)
    requires i < |ps|
    ensures Years(ps[..i + 1]) == if ps[i].0 in Years(ps[..i]) then Years(ps[..i]) else Years(ps[..i]) + [ps[i].0]
  {
    assert ps[..i + 1][..i] == ps[..i];
  }

  lemma EventsInStep(ps: seq<(string, TimelineEvent)>, i: nat, y: string)
    requires i < |ps|
    ensures EventsIn(ps[..i + 1], y) == EventsIn(ps[..i], y) + (if ps[i].0 == y then [ps[i].1] else [])
  {
    assert ps[..i + 1][..i] == ps[..i];
  }

  predicate Distinct(ys: seq<string>) {
    forall i, j :: 0 <= i < j < |ys| ==> ys[i] != ys[j]
  }

  /** Group keys are distinct. */
  lemma {:induction false} YearsDistinct(ps: seq<(string, TimelineEvent)>)
    ensures Distinct(Years(ps))
  {
    if |ps| > 0 {
      YearsDistinct(ps[..|ps| - 1]);
    }
  }

  /** A year that never occurs has no events. */
  lemma {:induction false} EventsInNone(ps: seq<(string, TimelineEvent)>, y: string)
    requires y !in Years(ps)
    ensures EventsIn(ps, y) == []
  {
    if |ps| > 0 {
      var init := ps[..|ps| - 1];
      assert y !in Years(init);
      EventsInNone(init, y);
    }
  }

  /** The years of the events, one per event. */
  function EventYears(ps: seq<(string, TimelineEvent)>): (r: seq<string>)
    ensures |r| == |ps|
    ensures forall i :: 0 <= i < |ps| ==> r[i] == ps[i].0
  {
    seq(|ps|, i requires 0 <= i < |ps| => ps[i].0)
  }

  /** A year is a group key exactly when some event has it. */
  lemma {:induction false} YearsExactly(ps: seq<(string, TimelineEvent)>, y: string)
    ensures y in Years(ps) <==> y in EventYears(ps)
  {
    if |ps| > 0 {
      var init := ps[..|ps| - 1];
      YearsExactly(init, y);
      assert EventYears(ps) == EventYears(init) + [ps[|ps| - 1].0];
    }
  }

  /** An event is in the group of year `y` exactly when it occurs with year `y`. */
  lemma {:induction false} EventsInExactly(ps: seq<(string, TimelineEvent)>, y: string, e: TimelineEvent)
    ensures e in EventsIn(ps, y) <==> (y, e) in ps
  {
    if |ps| > 0 {
      var init := ps[..|ps| - 1];
      EventsInExactly(init, y, e);
      assert ps == init + [ps[|ps| - 1]];
    }
  }

  /** Every event lands in the group of its own year, and only there. */
  lemma EventInItsGroup(events: seq<TimelineEvent>, y: string, e: TimelineEvent)
    ensures e in EventsIn(Tagged(events), y) <==> e in events && YearOf(e) == y
  {
    var ps := Tagged(events);
    EventsInExactly(ps, y, e);
    if e in events && YearOf(e) == y {
      var i :| 0 <= i < |events| && events[i] == e;
      assert ps[i] == (y, e);
    }
  }

  /** The years seen in a prefix come first, in the same order: groups follow first occurrence. */
  lemma {:induction false} YearsOfPrefix(ps: seq<(string, TimelineEvent)>, n: nat)
    requires n <= |ps|
    ensures |Years(ps[..n])| <= |Years(ps)|
    ensures Years(ps)[..|Years(ps[..n])|] == Years(ps[..n])
  {
    if n < |ps| {
      var init := ps[..|ps| - 1];
      assert init[..n] == ps[..n];
      YearsOfPrefix(init, n);
    } else {
      assert ps[..n] == ps;
    }
  }

  /** The first group is the year of the first event. */
  lemma FirstGroupIsFirstYear(events: seq<TimelineEvent>)
    requires |events| > 0
    ensures |YearGroups(events)| > 0 && YearGroups(events)[0].year == YearOf(events[0])
  {
    var ps := Tagged(events);
    YearsOfPrefix(ps, 1);
    var one := ps[..1];
    assert one[..0] == [] && one[0] == ps[0];
    assert Years(one) == [YearOf(events[0])];
  }

  /** The sizes of the groups of `ys`. */
  function GroupSizes(ps: seq<(string, TimelineEvent)>, ys: seq<string>): nat {
    if |ys| == 0 then 0 else GroupSizes(ps, ys[..|ys| - 1]) + |EventsIn(ps, ys[|ys| - 1])|
  }

  /** The last event adds one to the total of distinct years `ys` exactly when its year is among them. */
  lemma {:induction false} GroupSizesSnoc(ps: seq<(string, TimelineEvent)>, ys: seq<string>)
    requires |ps| > 0 && Distinct(ys)
    ensures GroupSizes(ps, ys) == GroupSizes(ps[..|ps| - 1], ys) + (if ps[|ps| - 1].0 in ys then 1 else 0)
  {
    if |ys| > 0 {
      var init := ys[..|ys| - 1];
      var last := ys[|ys| - 1];
      var y := ps[|ps| - 1].0;
      assert Distinct(init);
      GroupSizesSnoc(ps, init);
      assert y in ys <==> y in init || y == last;
      if y == last {
        assert y !in init by {
          forall i | 0 <= i < |init| ensures init[i] != last {
            assert init[i] == ys[i];
          }
        }
      }
    }
  }

  lemma {:induction false} GroupSizesAppend(ps: seq<(string, TimelineEvent)>, ys: seq<string>, y: string)
    ensures GroupSizes(ps, ys + [y]) == GroupSizes(ps, ys) + |EventsIn(ps, y)|
  {
    assert (ys + [y])[..|ys|] == ys;
  }

  /** `groupEventsByYear` is a partition: the group sizes add up to the number of events. */
  lemma {:induction false} GroupsPartition(ps: seq<(string, TimelineEvent)>)
    ensures GroupSizes(ps, Years(ps)) == |ps|
  {
    if |ps| > 0 {
      var init := ps[..|ps| - 1];
      var y := ps[|ps| - 1].0;
      GroupsPartition(init);
      YearsDistinct(init);
      GroupSizesSnoc(ps, Years(init));
      if y !in Years(init) {
        GroupSizesAppend(ps, Years(init), y);
        EventsInNone(init, y);
      }
    }
  }

  // ---------------------------------------------------------------------
  // Expanded years
  // ---------------------------------------------------------------------

  /** `toggleYear`'s updater: a copy of the set with `year` removed when present and added when absent. */
  function ToggleYear(prev: set<string>, year: string): (next: set<string>)
    ensures year in next <==> year !in prev
    ensures forall y :: y != year ==> (y in next <==> y in prev)
  {
    if year in prev then prev - {year} else prev + {year}
  }

  /** Toggling the same year twice restores the set. */
  lemma ToggleTwice(prev: set<string>, year: string)
    ensures ToggleYear(ToggleYear(prev, year), year) == prev
  {
  }

  /** Toggles of two different years commute. */
  lemma ToggleCommutes(s: set<string>, a: string, b: string)
    ensures ToggleYear(ToggleYear(s, a), b) == ToggleYear(ToggleYear(s, b), a)
  {
  }

  /** The set expanded at first: the year of the first group. */
  function InitialExpanded(groups: seq<YearGroup>): (r: set<string>)
    ensures |groups| > 0 ==> r == {groups[0].year}
  {
    if |groups| > 0 then {groups[0].year} else {}
  }

  /** On a non-empty timeline, exactly the first event's year starts expanded. */
  lemma InitialIsFirstEventYear(events: seq<TimelineEvent>)
    requires |events| > 0
    ensures InitialExpanded(YearGroups(events)) == {YearOf(events[0])}
  {
    FirstGroupIsFirstYear(events);
  }
}
