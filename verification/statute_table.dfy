/**
 * The statute-of-limitations table: a search that keeps the entries whose
 * state or code contains the term (case-insensitively), a stable sort by
 * state name or by the leading number of the deadline, ascending or
 * descending, and the header click that toggles the sort.
 */
module StatuteTable {
  import opened Common

  datatype StatuteEntry = StatuteEntry(state: string, code: string, deadline: string, discoveryRule: bool, notes: string)

  datatype SortColumn = ByState | ByDeadline

  datatype SortOrder = Asc | Desc

  /** The component's state: search term, sort column and sort order. */
  datatype View = View(searchTerm: string, sortBy: SortColumn, sortOrder: SortOrder)

  const InitialView: View := View("", ByState, Asc)

  // ---------------------------------------------------------------------
  // Search
  // ---------------------------------------------------------------------

  /** The entry's state or code contains the term, both lower-cased: `includes` on `toLowerCase`. */
  predicate Matches(e: StatuteEntry, term: string)
    ensures term == "" ==> Matches(e, term)
  {
    ContainsEmpty(ToLower(e.state));
    assert ToLower("") == "";
    Contains(ToLower(e.state), ToLower(term)) || Contains(ToLower(e.code), ToLower(term))
  }

  /** `statuteData.filter(...)`: the matching entries, in table order. */
  function Filtered(data: seq<StatuteEntry>, term: string): (r: seq<StatuteEntry>)
    ensures |r| <= |data|
    ensures forall x :: multiset(r)[x] == if Matches(x, term) then multiset(data)[x] else 0
  {
    if |data| == 0 then []
    else
      assert data == data[..|data| - 1] + [data[|data| - 1]];
      Filtered(data[..|data| - 1], term) + (if Matches(data[|data| - 1], term) then [data[|data| - 1]] else [])
  }

  /** An entry is kept exactly when it is in the table and matches the term. */
  lemma {:induction false} FilteredExactly(data: seq<StatuteEntry>, term: string, e: StatuteEntry)
    ensures e in Filtered(data, term) <==> e in data && Matches(e, term)
  {
    var r := Filtered(data, term);
    assert e in r <==> multiset(r)[e] > 0;
    assert e in data <==> multiset(data)[e] > 0;
  }

  /** An empty search keeps the whole table, in order. */
  lemma {:induction false} EmptyTermKeepsAll(data: seq<StatuteEntry>)
    ensures Filtered(data, "") == data
  {
    if |data| > 0 {
      var init, last := data[..|data| - 1], data[|data| - 1];
      assert data == init + [last];
      EmptyTermKeepsAll(init);
      FilteredSnoc(init, last, "");
    }
  }

  lemma FilteredSnoc(init: seq<StatuteEntry>, e: StatuteEntry, term: string)
    ensures Filtered(init + [e], term) == Filtered(init, term) + (if Matches(e, term) then [e] else [])
  {
    assert (init + [e])[..|init|] == init;
  }

  // ---------------------------------------------------------------------
  // Comparators
  // ---------------------------------------------------------------------

  /** Code-unit lexicographic comparison: -1, 0 or 1. */
  function LexCompare(a: string, b: string): (r: int)
    ensures -1 <= r <= 1
    ensures r == 0 <==> a == b
  {
    if |a| == 0 && |b| == 0 then 0
    else if |a| == 0 then -1
    else if |b| == 0 then 1
    else if a[0] < b[0] then -1
    else if a[0] > b[0] then 1
    else
      var r := LexCompare(a[1..], b[1..]);
      assert r == 0 ==> a == [a[0]] + a[1..] == [b[0]] + b[1..] == b;
      r
  }

  lemma {:induction false} LexCompareAntisymmetric(a: string, b: string)
    ensures LexCompare(a, b) == -LexCompare(b, a)
  {
    if |a| > 0 && |b| > 0 && a[0] == b[0] {
      LexCompareAntisymmetric(a[1..], b[1..]);
    }
  }

  lemma {:induction false} LexCompareTransitive(a: string, b: string, c: string)
    requires LexCompare(a, b) <= 0 && LexCompare(b, c) <= 0
    ensures LexCompare(a, c) <= 0
  {
    if |a| > 0 && |b| > 0 && |c| > 0 && a[0] == b[0] == c[0] {
      LexCompareTransitive(a[1..], b[1..], c[1..]);
    }
  }

  function DigitValue(c: char): nat
    requires IsDigit(c)
  {
    c as int - '0' as int
  }

  /** The digits at the head of `s`. */
  function LeadingDigits(s: string): (r: string)
    ensures StartsWith(s, r)
    ensures forall i :: 0 <= i < |r| ==> IsDigit(r[i])
    ensures |r| < |s| ==> !IsDigit(s[|r|])
  {
    if |s| == 0 || !IsDigit(s[0]) then "" else [s[0]] + LeadingDigits(s[1..])
  }

  /** The decimal value of a string of digits. */
  function DigitsValue(d: string): nat
    requires forall i :: 0 <= i < |d| ==> IsDigit(d[i])
  {
    if |d| == 0 then 0 else DigitsValue(d[..|d| - 1]) * 10 + DigitValue(d[|d| - 1])
  }

  /**
   * `parseInt(s)` in base 10: leading white space, an optional sign and the
   * digits that follow; None (NaN) when there are none.
   */
  function ParseInt(s: string): (r: Option<int>)
    ensures r.Some? ==> |LeadingDigits(SignFree(TrimStart(s)))| > 0
  {
    var t := TrimStart(s);
    var u := SignFree(t);
    var digits := LeadingDigits(u);
    if |digits| == 0 then None
    else if |t| > 0 && t[0] == '-' then Some(-(DigitsValue(digits) as int))
    else Some(DigitsValue(digits))
  }

  function SignFree(t: string): string {
    if |t| > 0 && (t[0] == '-' || t[0] == '+') then t[1..] else t
  }

  /**
   * The comparator passed to `sort`: a positive value puts `a` after `b`.
   * A deadline without a leading number makes the difference NaN, which
   * `sort` reads as 0.
   */
  function Compare(sortBy: SortColumn, sortOrder: SortOrder, a: StatuteEntry, b: StatuteEntry): (r: int)
    ensures sortBy == ByState ==> -1 <= r <= 1 && (r == 0 <==> a.state == b.state)
    ensures sortBy == ByState ==> r == Direction(sortOrder) * LexCompare(a.state, b.state)
    ensures sortBy == ByDeadline && (ParseInt(a.deadline).None? || ParseInt(b.deadline).None?) ==> r == 0
    ensures sortBy == ByDeadline && ParseInt(a.deadline).Some? && ParseInt(b.deadline).Some?
            ==> r == Direction(sortOrder) * (Years(a) - Years(b))
  {
    LexCompareAntisymmetric(a.state, b.state);
    match sortBy
    case ByState =>
      if sortOrder == Asc then LexCompare(a.state, b.state) else LexCompare(b.state, a.state)
    case ByDeadline =>
      var aYears := ParseInt(a.deadline);
      var bYears := ParseInt(b.deadline);
      if aYears.None? || bYears.None? then 0
      else if sortOrder == Asc then aYears.value - bYears.value
      else bYears.value - aYears.value
  }

  /** 1 for ascending, -1 for descending: descending is ascending negated. */
  function Direction(sortOrder: SortOrder): int {
    if sortOrder == Asc then 1 else -1
  }

  /** The comparator as the function value handed to `sort`; swapping its arguments negates it. */
  function Comparator(sortBy: SortColumn, sortOrder: SortOrder): (r: (StatuteEntry, StatuteEntry) -> int)
    ensures forall a, b :: r(a, b) == -r(b, a)
  {
    CompareSwap(sortBy, sortOrder);
    (a, b) => Compare(sortBy, sortOrder, a, b)
  }

  lemma CompareSwap(sortBy: SortColumn, sortOrder: SortOrder)
    ensures forall a, b :: Compare(sortBy, sortOrder, a, b) == -Compare(sortBy, sortOrder, b, a)
  {
    forall a, b ensures Compare(sortBy, sortOrder, a, b) == -Compare(sortBy, sortOrder, b, a) {
      LexCompareAntisymmetric(a.state, b.state);
    }
  }

  /** The leading number of an entry's deadline, 0 when there is none. */
  function Years(e: StatuteEntry): int {
    match ParseInt(e.deadline)
    case Some(n) => n
    case None => 0
  }

  /** Every deadline of `xs` starts with a number. */
  predicate AllDeadlinesParse(xs: seq<StatuteEntry>) {
    forall i :: 0 <= i < |xs| ==> ParseInt(xs[i].deadline).Some?
  }

  lemma CompareAntisymmetric(sortBy: SortColumn, sortOrder: SortOrder, a: StatuteEntry, b: StatuteEntry)
    ensures Compare(sortBy, sortOrder, a, b) > 0 ==> Compare(sortBy, sortOrder, b, a) < 0
  {
    if sortBy == ByState {
      LexCompareAntisymmetric(a.state, b.state);
    }
  }

  lemma CompareTransitive(sortBy: SortColumn, sortOrder: SortOrder, a: StatuteEntry, b: StatuteEntry, c: StatuteEntry)
    requires sortBy == ByDeadline ==> ParseInt(a.deadline).Some? && ParseInt(b.deadline).Some? && ParseInt(c.deadline).Some?
    requires Compare(sortBy, sortOrder, a, b) <= 0 && Compare(sortBy, sortOrder, b, c) <= 0
    ensures Compare(sortBy, sortOrder, a, c) <= 0
  {
    if sortBy == ByState {
      if sortOrder == Asc {
        LexCompareTransitive(a.state, b.state, c.state);
      } else {
        LexCompareTransitive(c.state, b.state, a.state);
      }
    }
  }

  /**
   * The comparator orders the entries of `xs` consistently: always by
   * state, and by deadline when every deadline starts with a number.
   */
  lemma ComparatorIsPreorder(sortBy: SortColumn, sortOrder: SortOrder, xs: seq<StatuteEntry>)
    requires sortBy == ByDeadline ==> AllDeadlinesParse(xs)
    ensures PreorderOn(Comparator(sortBy, sortOrder), xs)
  {
    var cmp := Comparator(sortBy, sortOrder);
    forall a, b | a in xs && b in xs && cmp(a, b) > 0 ensures cmp(b, a) < 0 {
      CompareAntisymmetric(sortBy, sortOrder, a, b);
    }
    forall a, b, c | a in xs && b in xs && c in xs && cmp(a, b) <= 0 && cmp(b, c) <= 0 ensures cmp(a, c) <= 0 {
      CompareTransitive(sortBy, sortOrder, a, b, c);
    }
  }

  // ---------------------------------------------------------------------
  // Sort
  // ---------------------------------------------------------------------

  /** `cmp` is antisymmetric and transitive on the elements of `xs`. */
  ghost predicate PreorderOn<T>(cmp: (T, T) -> int, xs: seq<T>) {
    (forall a, b :: a in xs && b in xs && cmp(a, b) > 0 ==> cmp(b, a) < 0) &&
    (forall a, b, c :: a in xs && b in xs && c in xs && cmp(a, b) <= 0 && cmp(b, c) <= 0 ==> cmp(a, c) <= 0)
  }

  predicate SortedBy<T>(cmp: (T, T) -> int, r: seq<T>) {
    forall i, j :: 0 <= i < j < |r| ==> cmp(r[i], r[j]) <= 0
  }

  /** `x` placed after every leading element that does not compare greater than it. */
  function Insert<T>(cmp: (T, T) -> int, x: T, sorted: seq<T>): (r: seq<T>)
    ensures multiset(r) == multiset(sorted) + multiset{x}
  {
    if |sorted| == 0 then [x]
    else if cmp(sorted[0], x) > 0 then [x] + sorted
    else
      var r := [sorted[0]] + Insert(cmp, x, sorted[1..]);
      assert sorted == [sorted[0]] + sorted[1..];
      r
  }

  /**
   * `Array.prototype.sort` with a comparator, as a stable insertion sort:
   * each element goes after the earlier elements that do not compare greater.
   */
  function SortWith<T>(cmp: (T, T) -> int, xs: seq<T>): (r: seq<T>)
    ensures multiset(r) == multiset(xs)
  {
    if |xs| == 0 then []
    else
      var r := Insert(cmp, xs[|xs| - 1], SortWith(cmp, xs[..|xs| - 1]));
      assert xs == xs[..|xs| - 1] + [xs[|xs| - 1]];
      r
  }

  lemma PreorderOnSubset<T>(cmp: (T, T) -> int, xs: seq<T>, ys: seq<T>)
    requires PreorderOn(cmp, xs)
    requires forall y :: y in ys ==> y in xs
    ensures PreorderOn(cmp, ys)
  {
  }

  lemma InsertFirstSorted<T>(cmp: (T, T) -> int, x: T, s: seq<T>)
    requires SortedBy(cmp, s) && PreorderOn(cmp, s + [x])
    requires |s| > 0 && cmp(s[0], x) > 0
    ensures SortedBy(cmp, [x] + s)
  {
    var r := [x] + s;
    assert s[0] in s + [x] && x in s + [x];
    forall j | 0 < j < |r| ensures cmp(x, r[j]) <= 0 {
      assert r[j] == s[j - 1] && s[j - 1] in s + [x];
    }
  }

  lemma {:induction false} InsertSorted<T>(cmp: (T, T) -> int, x: T, s: seq<T>)
    requires SortedBy(cmp, s) && PreorderOn(cmp, s + [x])
    ensures SortedBy(cmp, Insert(cmp, x, s))
  {
    if |s| > 0 {
      if cmp(s[0], x) > 0 {
        InsertFirstSorted(cmp, x, s);
      } else {
        TailPreorder(cmp, x, s);
        InsertSorted(cmp, x, s[1..]);
        HeadBeforeInsert(cmp, x, s);
        ConsSorted(cmp, s[0], Insert(cmp, x, s[1..]));
      }
    }
  }

  lemma TailPreorder<T>(cmp: (T, T) -> int, x: T, s: seq<T>)
    requires |s| > 0 && PreorderOn(cmp, s + [x])
    ensures PreorderOn(cmp, s[1..] + [x])
  {
    forall y | y in s[1..] + [x] ensures y in s + [x] {
      if y != x {
        var k :| 0 <= k < |s[1..]| && s[1..][k] == y;
        assert (s + [x])[k + 1] == y;
      }
    }
    PreorderOnSubset(cmp, s + [x], s[1..] + [x]);
  }

  /** A head that does not compare greater than `x` comes before everything in the insertion into the tail. */
  lemma HeadBeforeInsert<T>(cmp: (T, T) -> int, x: T, s: seq<T>)
    requires |s| > 0 && SortedBy(cmp, s) && cmp(s[0], x) <= 0
    ensures forall y :: y in Insert(cmp, x, s[1..]) ==> cmp(s[0], y) <= 0
  {
    var t := s[1..];
    forall y | y in Insert(cmp, x, t) ensures cmp(s[0], y) <= 0 {
      assert y in multiset(Insert(cmp, x, t));
      assert y == x || y in t;
      if y != x {
        var k :| 0 <= k < |t| && t[k] == y;
        assert s[k + 1] == y;
      }
    }
  }

  lemma ConsSorted<T>(cmp: (T, T) -> int, h: T, rest: seq<T>)
    requires SortedBy(cmp, rest)
    requires forall y :: y in rest ==> cmp(h, y) <= 0
    ensures SortedBy(cmp, [h] + rest)
  {
    var r := [h] + rest;
    forall i, j | 0 <= i < j < |r| ensures cmp(r[i], r[j]) <= 0 {
      if i == 0 {
        assert r[j] == rest[j - 1] && r[j] in rest;
      } else {
        assert r[i] == rest[i - 1] && r[j] == rest[j - 1];
      }
    }
  }

  /** Under a comparator consistent on `xs`, the result is in order. */
  lemma {:induction false} SortSorted<T>(cmp: (T, T) -> int, xs: seq<T>)
    requires PreorderOn(cmp, xs)
    ensures SortedBy(cmp, SortWith(cmp, xs))
  {
    if |xs| > 0 {
      var init := xs[..|xs| - 1];
      var x := xs[|xs| - 1];
      PreorderOnSubset(cmp, xs, init);
      SortSorted(cmp, init);
      var s := SortWith(cmp, init);
      forall y | y in s + [x] ensures y in xs {
        if y in s {
          assert y in multiset(s);
        }
      }
      PreorderOnSubset(cmp, xs, s + [x]);
      InsertSorted(cmp, x, s);
    }
  }

  /** The rows shown: `filteredAndSortedData`. */
  function Displayed(data: seq<StatuteEntry>, view: View): (r: seq<StatuteEntry>)
    ensures multiset(r) == multiset(Filtered(data, view.searchTerm))
    ensures |r| <= |data|
  {
    var r := SortWith(Comparator(view.sortBy, view.sortOrder), Filtered(data, view.searchTerm));
    assert |r| == |multiset(r)| == |Filtered(data, view.searchTerm)|;
    r
  }

  /**
   * The rows shown are the matching entries, each as often as in the table,
   * in order; "Showing n of m" has n no larger than m.
   */
  lemma DisplayedIsSortedSelection(data: seq<StatuteEntry>, view: View)
    requires view.sortBy == ByDeadline ==> AllDeadlinesParse(Filtered(data, view.searchTerm))
    ensures multiset(Displayed(data, view)) == multiset(Filtered(data, view.searchTerm))
    ensures SortedBy(Comparator(view.sortBy, view.sortOrder), Displayed(data, view))
    ensures |Displayed(data, view)| <= |data|
  {
    var f := Filtered(data, view.searchTerm);
    ComparatorIsPreorder(view.sortBy, view.sortOrder, f);
    SortSorted(Comparator(view.sortBy, view.sortOrder), f);
    assert |Displayed(data, view)| == |multiset(Displayed(data, view))|;
  }

  /** By state, ascending means by name and descending means by name reversed. */
  lemma StateOrder(view: View, data: seq<StatuteEntry>)
    requires view.sortBy == ByState
    ensures var r := Displayed(data, view);
      forall i, j :: 0 <= i < j < |r| ==>
        if view.sortOrder == Asc then LexCompare(r[i].state, r[j].state) <= 0 else LexCompare(r[j].state, r[i].state) <= 0
  {
    DisplayedIsSortedSelection(data, view);
  }

  /**
   * By deadline, ascending means by the leading number of the deadline and
   * descending means by that number reversed.
   */
  lemma DeadlineOrder(view: View, data: seq<StatuteEntry>)
    requires view.sortBy == ByDeadline
    requires AllDeadlinesParse(Filtered(data, view.searchTerm))
    ensures var r := Displayed(data, view);
      forall i, j :: 0 <= i < j < |r| ==>
        if view.sortOrder == Asc then Years(r[i]) <= Years(r[j]) else Years(r[i]) >= Years(r[j])
  {
    var f := Filtered(data, view.searchTerm);
    DisplayedIsSortedSelection(data, view);
    var r := Displayed(data, view);
    forall i, j | 0 <= i < j < |r|
      ensures if view.sortOrder == Asc then Years(r[i]) <= Years(r[j]) else Years(r[i]) >= Years(r[j])
    {
      InMultiset(r, f, i);
      InMultiset(r, f, j);
      DeadlinePair(view.sortOrder, r[i], r[j]);
    }
  }

  lemma InMultiset(r: seq<StatuteEntry>, f: seq<StatuteEntry>, i: nat)
    requires multiset(r) == multiset(f) && i < |r| && AllDeadlinesParse(f)
    ensures ParseInt(r[i].deadline).Some?
  {
    assert r[i] in multiset(f);
  }

  lemma DeadlinePair(sortOrder: SortOrder, a: StatuteEntry, b: StatuteEntry)
    requires ParseInt(a.deadline).Some? && ParseInt(b.deadline).Some?
    requires Comparator(ByDeadline, sortOrder)(a, b) <= 0
    ensures if sortOrder == Asc then Years(a) <= Years(b) else Years(a) >= Years(b)
  {
  }

  /** `parseInt` reads "2 years" as 2. */
  lemma ParseIntLeadingNumber()
    ensures ParseInt("2 years") == Some(2)
  {
    assert TrimStart("2 years") == "2 years";
    assert LeadingDigits("2 years") == "2";
  }

  /** `parseInt` finds no number in "Varies". */
  lemma ParseIntNoNumber()
    ensures ParseInt("Varies") == None
  {
    var v := "Varies";
    assert !IsSpace(v[0]) && !IsDigit(v[0]) && v[0] != '-' && v[0] != '+';
    assert TrimStart(v) == v;
    assert SignFree(v) == v;
    assert LeadingDigits(v) == [];
  }

  // ---------------------------------------------------------------------
  // Header clicks
  // ---------------------------------------------------------------------

  /** `toggleSort`: the current column flips the order; another column is sorted ascending. */
  function ToggleSort(view: View, column: SortColumn): (r: View)
    ensures r.searchTerm == view.searchTerm && r.sortBy == column
    ensures view.sortBy == column ==> r.sortOrder != view.sortOrder
    ensures view.sortBy != column ==> r.sortOrder == Asc
  {
    if view.sortBy == column then view.(sortOrder := if view.sortOrder == Asc then Desc else Asc)
    else view.(sortBy := column, sortOrder := Asc)
  }

  /** Two clicks on the sorted column give back the view. */
  lemma ToggleSortTwice(view: View)
    ensures ToggleSort(ToggleSort(view, view.sortBy), view.sortBy) == view
  {
  }
}
