/** The farmer's report centre: the type tabs, the comparator sort over the
    filtered list, the sort-direction toggle and the custom-report form that
    prepends a new report. `Array.prototype.sort` is stable, so it is modelled
    by a stable insertion sort. */
module ReportsDownload {
  import Text
  import Seqs

  datatype ReportFormat = Csv | Pdf | Xlsx

  /** A report. `kind` is the `type` field; the form stores whatever string it
      was given there. */
  datatype Report = Report(
    id: string,
    name: string,
    kind: string,
    format: ReportFormat,
    dateRange: string,
    description: string,
    created: int,
    size: string)

  datatype SortOrder = Asc | Desc

  /** `filteredReports`: every report under `'all'`, otherwise exactly the
      reports whose type is the tab, in order. */
  function TabFiltered(reports: seq<Report>, tab: string): (r: seq<Report>)
    ensures tab == "all" ==> r == reports
    ensures tab != "all" ==> forall x :: x in r <==> x in reports && x.kind == tab
    ensures Seqs.IsSubsequence(r, reports)
  {
    var keep := (x: Report) => tab == "all" || x.kind == tab;
    Seqs.FilterIsSubsequence(reports, keep);
    Seqs.Filter(reports, keep)
  }

  /** The comparator handed to `sort`: negative when `a` goes first. */
  function Compare(sortBy: string, order: SortOrder, a: Report, b: Report): int
  {
    if sortBy == "date" then
      (if order == Desc then b.created - a.created else a.created - b.created)
    else if sortBy == "name" then
      (if order == Desc then Text.StrCompare(b.name, a.name) else Text.StrCompare(a.name, b.name))
    else if sortBy == "type" then
      (if order == Desc then Text.StrCompare(b.kind, a.kind) else Text.StrCompare(a.kind, b.kind))
    else 0
  }

  /** The comparator is antisymmetric: swapping its arguments negates it. */
  lemma CompareFlip(sortBy: string, order: SortOrder, a: Report, b: Report)
    ensures Compare(sortBy, order, a, b) == -Compare(sortBy, order, b, a)
  {
    Text.StrCompareFlip(a.name, b.name);
    Text.StrCompareFlip(a.kind, b.kind);
  }

  /** "Not after" is transitive, so with `CompareFlip` the comparator is a total preorder. */
  lemma CompareTrans(sortBy: string, order: SortOrder, a: Report, b: Report, c: Report)
    requires Compare(sortBy, order, a, b) <= 0 && Compare(sortBy, order, b, c) <= 0
    ensures Compare(sortBy, order, a, c) <= 0
  {
    if sortBy == "name" {
      if order == Desc { Text.StrCompareTrans(c.name, b.name, a.name); }
      else { Text.StrCompareTrans(a.name, b.name, c.name); }
    } else if sortBy == "type" {
      if order == Desc { Text.StrCompareTrans(c.kind, b.kind, a.kind); }
      else { Text.StrCompareTrans(a.kind, b.kind, c.kind); }
    }
  }

  /** Every neighbouring pair is in comparator order. */
  predicate SortedBy(sortBy: string, order: SortOrder, s: seq<Report>)
  {
    forall i :: 0 <= i < |s| - 1 ==> Compare(sortBy, order, s[i], s[i + 1]) <= 0
  }

  /** Puts `x` before the first element it does not come after. */
  function Insert(sortBy: string, order: SortOrder, x: Report, s: seq<Report>): (r: seq<Report>)
    ensures multiset(r) == multiset(s) + multiset{x}
    ensures |r| == |s| + 1
  {
    if s == [] then [x]
    else if Compare(sortBy, order, x, s[0]) <= 0 then [x] + s
    else
      var rest := Insert(sortBy, order, x, s[1..]);
      assert s == [s[0]] + s[1..];
      [s[0]] + rest
  }

  /** `[...filtered].sort(cmp)`: a stable sort. */
  function Sort(sortBy: string, order: SortOrder, s: seq<Report>): (r: seq<Report>)
    ensures multiset(r) == multiset(s)
    ensures |r| == |s|
  {
    if s == [] then []
    else
      assert s == [s[0]] + s[1..];
      Insert(sortBy, order, s[0], Sort(sortBy, order, s[1..]))
  }

  /** Inserting into a sorted list keeps it sorted. */
  lemma {:induction false} InsertSorted(sortBy: string, order: SortOrder, x: Report, s: seq<Report>)
    requires SortedBy(sortBy, order, s)
    ensures SortedBy(sortBy, order, Insert(sortBy, order, x, s))
    ensures s != [] ==> Insert(sortBy, order, x, s)[0] == x || Insert(sortBy, order, x, s)[0] == s[0]
  {
    if s != [] && Compare(sortBy, order, x, s[0]) > 0 {
      InsertSorted(sortBy, order, x, s[1..]);
      CompareFlip(sortBy, order, x, s[0]);
    }
  }

  /** The sorted list is in comparator order and is a permutation of its input. */
  lemma {:induction false} SortSorted(sortBy: string, order: SortOrder, s: seq<Report>)
    ensures SortedBy(sortBy, order, Sort(sortBy, order, s))
    ensures multiset(Sort(sortBy, order, s)) == multiset(s)
  {
    if s != [] {
      SortSorted(sortBy, order, s[1..]);
      InsertSorted(sortBy, order, s[0], Sort(sortBy, order, s[1..]));
    }
  }

  /** Neighbouring order extends to every pair. */
  lemma {:induction false} SortedAllPairs(sortBy: string, order: SortOrder, s: seq<Report>, i: nat, j: nat)
    requires SortedBy(sortBy, order, s)
    requires i < j < |s|
    ensures Compare(sortBy, order, s[i], s[j]) <= 0
    decreases j - i
  {
    if i + 1 < j {
      SortedAllPairs(sortBy, order, s, i + 1, j);
      CompareTrans(sortBy, order, s[i], s[i + 1], s[j]);
    }
  }

  /** Sorting by date: newest first for `'desc'`, oldest first for `'asc'`. */
  lemma SortByDateMonotone(order: SortOrder, s: seq<Report>, i: nat, j: nat)
    requires i < j < |s|
    ensures var r := Sort("date", order, s);
            if order == Desc then r[i].created >= r[j].created else r[i].created <= r[j].created
  {
    SortSorted("date", order, s);
    SortedAllPairs("date", order, Sort("date", order, s), i, j);
  }

  /** Sorting by name: alphabetical for `'asc'`, reverse for `'desc'`. */
  lemma SortByNameOrdered(order: SortOrder, s: seq<Report>, i: nat, j: nat)
    requires i < j < |s|
    ensures var r := Sort("name", order, s);
            if order == Asc then Text.StrCompare(r[i].name, r[j].name) <= 0
            else Text.StrCompare(r[j].name, r[i].name) <= 0
  {
    SortSorted("name", order, s);
    SortedAllPairs("name", order, Sort("name", order, s), i, j);
  }

  /** Sorting by type: alphabetical for `'asc'`, reverse for `'desc'`. */
  lemma SortByTypeOrdered(order: SortOrder, s: seq<Report>, i: nat, j: nat)
    requires i < j < |s|
    ensures var r := Sort("type", order, s);
            if order == Asc then Text.StrCompare(r[i].kind, r[j].kind) <= 0
            else Text.StrCompare(r[j].kind, r[i].kind) <= 0
  {
    SortSorted("type", order, s);
    SortedAllPairs("type", order, Sort("type", order, s), i, j);
  }

  /** Any other `sortBy` makes the comparator return 0, and the stable sort then
      keeps the filtered order. */
  lemma {:induction false} UnknownSortKeepsOrder(sortBy: string, order: SortOrder, s: seq<Report>)
    requires sortBy != "date" && sortBy != "name" && sortBy != "type"
    ensures Sort(sortBy, order, s) == s
  {
    if s != [] {
      UnknownSortKeepsOrder(sortBy, order, s[1..]);
      assert s == [s[0]] + s[1..];
    }
  }

  /** The reports that tie with `x` under the comparator. */
  function Ties(sortBy: string, order: SortOrder, x: Report): Report -> bool
  {
    (y: Report) => Compare(sortBy, order, y, x) == 0
  }

  /** Two reports that each tie with `x` are not out of order with each other. */
  lemma TiesInOrder(sortBy: string, order: SortOrder, x: Report, a: Report, b: Report)
    requires Ties(sortBy, order, x)(a) && Ties(sortBy, order, x)(b)
    ensures Compare(sortBy, order, a, b) <= 0
  {
    CompareFlip(sortBy, order, b, x);
    CompareTrans(sortBy, order, a, x, b);
  }

  /** Inserting `a` puts it ahead of every report it ties with, so among the
      ties of any `x` it comes first. */
  lemma {:induction false} InsertTies(sortBy: string, order: SortOrder, a: Report, t: seq<Report>, x: Report)
    ensures var tie := Ties(sortBy, order, x);
            Seqs.Filter(Insert(sortBy, order, a, t), tie)
            == (if tie(a) then [a] else []) + Seqs.Filter(t, tie)
  {
    var tie := Ties(sortBy, order, x);
    if t == [] {
      Seqs.FilterCons(a, t, tie);
      assert [a] + t == [a];
    } else if Compare(sortBy, order, a, t[0]) <= 0 {
      Seqs.FilterCons(a, t, tie);
    } else {
      var rest := Insert(sortBy, order, a, t[1..]);
      assert Insert(sortBy, order, a, t) == [t[0]] + rest;
      InsertTies(sortBy, order, a, t[1..], x);
      Seqs.FilterCons(t[0], rest, tie);
      assert t == [t[0]] + t[1..];
      Seqs.FilterCons(t[0], t[1..], tie);
      if tie(a) {
        if tie(t[0]) {
          TiesInOrder(sortBy, order, x, a, t[0]);
          assert false;
        }
        assert Seqs.Filter(Insert(sortBy, order, a, t), tie) == Seqs.Filter(rest, tie);
        assert Seqs.Filter(t, tie) == Seqs.Filter(t[1..], tie);
      } else {
        assert Seqs.Filter(rest, tie) == Seqs.Filter(t[1..], tie);
      }
    }
  }

  /** The sort is stable: the reports that tie with any `x` (same day, same
      name or same type, by the key) come out in their input order. */
  lemma {:induction false} SortStable(sortBy: string, order: SortOrder, s: seq<Report>, x: Report)
    ensures Seqs.Filter(Sort(sortBy, order, s), Ties(sortBy, order, x))
            == Seqs.Filter(s, Ties(sortBy, order, x))
  {
    if s != [] {
      SortStable(sortBy, order, s[1..], x);
      InsertTies(sortBy, order, s[0], Sort(sortBy, order, s[1..]), x);
    }
  }

  /** `toggleSortOrder`. */
  function Toggled(order: SortOrder): (r: SortOrder)
    ensures r != order
  {
    if order == Desc then Asc else Desc
  }

  /** Toggling twice restores the order. */
  lemma ToggleInvolution(order: SortOrder)
    ensures Toggled(Toggled(order)) == order
  {
  }

  /** The values of the custom-report form. */
  datatype ReportForm = ReportForm(
    reportName: string,
    reportType: string,
    format: ReportFormat,
    dateFrom: string,
    dateTo: string,
    includeDetails: bool)

  /** `formSchema`: the name needs at least two characters; the format is one
      of the three enum values by construction; the other fields are free
      strings and a boolean. */
  predicate FormValid(values: ReportForm)
  {
    |values.reportName| >= 2
  }

  /** `Math.floor(Math.random() * 500) + 100`, given the random draw. */
  function SizeKb(draw: real): (kb: int)
    requires 0.0 <= draw < 1.0
    ensures 100 <= kb < 600
  {
    (draw * 500.0).Floor + 100
  }

  /** The report `onSubmit` builds at time `now`. */
  function NewReport(values: ReportForm, now: nat, draw: real): (r: Report)
    requires 0.0 <= draw < 1.0
    ensures r.name == values.reportName && r.kind == values.reportType && r.format == values.format
    ensures r.created == now
    ensures r.dateRange == values.dateFrom + " - " + values.dateTo
  {
    Report("rep" + Text.Decimal(now), values.reportName, values.reportType, values.format,
           values.dateFrom + " - " + values.dateTo,
           "Custom report generated with selected parameters.",
           now, Text.Decimal(SizeKb(draw)) + " KB")
  }

  /** The page state. */
  class ReportsPanel {
    var reports: seq<Report>
    var activeTab: string
    var sortBy: string
    var sortOrder: SortOrder

    constructor (initial: seq<Report>)
      ensures reports == initial && activeTab == "all" && sortBy == "date" && sortOrder == Desc
    {
      reports := initial;
      activeTab := "all";
      sortBy := "date";
      sortOrder := Desc;
    }

    /** `sortedReports`: the list the page shows. */
    function Visible(): (r: seq<Report>)
      reads this
      ensures multiset(r) == multiset(TabFiltered(reports, activeTab))
      ensures SortedBy(sortBy, sortOrder, r)
    {
      SortSorted(sortBy, sortOrder, TabFiltered(reports, activeTab));
      Sort(sortBy, sortOrder, TabFiltered(reports, activeTab))
    }

    method ToggleSortOrder()
      modifies this
      ensures sortOrder == Toggled(old(sortOrder))
      ensures reports == old(reports) && activeTab == old(activeTab) && sortBy == old(sortBy)
    {
      sortOrder := Toggled(sortOrder);
    }

    method SelectTab(tab: string)
      modifies this
      ensures activeTab == tab
      ensures reports == old(reports) && sortBy == old(sortBy) && sortOrder == old(sortOrder)
    {
      activeTab := tab;
    }

    method SetSortBy(key: string)
      modifies this
      ensures sortBy == key
      ensures reports == old(reports) && activeTab == old(activeTab) && sortOrder == old(sortOrder)
    {
      sortBy := key;
    }

    /** The form's submit: the resolver blocks invalid values; valid ones make a
        new report that is prepended, the old list following it unchanged. */
    method Submit(values: ReportForm, now: nat, draw: real) returns (accepted: bool)
      requires 0.0 <= draw < 1.0
      modifies this
      ensures accepted <==> FormValid(values)
      ensures accepted ==> reports == [NewReport(values, now, draw)] + old(reports)
      ensures !accepted ==> reports == old(reports)
      ensures activeTab == old(activeTab) && sortBy == old(sortBy) && sortOrder == old(sortOrder)
    {
      accepted := FormValid(values);
      if accepted {
        reports := [NewReport(values, now, draw)] + reports;
      }
    }
  }
}
