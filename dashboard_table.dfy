/** The stock table of the dashboard page (frontend/js/dashboard.js): the search
    box and the status select each rewrite the visibility of every table row. */
module DashboardTable {
  import opened Wrappers
  import opened Text

  /** A `tbody` row: its whole text content and, when it has a `.status-badge`,
      that badge's text. */
  datatype Row = Row(text: string, badge: Option<string>)

  const AllStatuses := "Todos os status"

  /** The search rule: the lower-cased row text contains the lower-cased term. */
  predicate SearchShows(term: string, row: Row) {
    Contains(Lower(row.text), Lower(term))
  }

  /** The status rule: every row for "Todos os status", otherwise the rows whose
      badge text, trimmed, is exactly the selected value. */
  predicate StatusShows(value: string, row: Row) {
    value == AllStatuses || (row.badge.Some? && Trim(row.badge.value, IsJsSpace) == value)
  }

  /** The table rows (the page never adds or removes any) and their display flags. */
  class Table {
    const rows: seq<Row>
    var visible: seq<bool>

    ghost predicate Valid()
      reads this
    {
      |visible| == |rows|
    }

    constructor (rows: seq<Row>)
      ensures this.rows == rows && Valid()
      ensures forall i :: 0 <= i < |rows| ==> visible[i]
    {
      this.rows := rows;
      visible := seq(|rows|, i => true);
    }

    /** The `input` handler of `.input-search`. */
    method OnSearch(value: string)
      requires Valid()
      modifies this`visible
      ensures Valid()
      ensures forall i :: 0 <= i < |rows| ==> (visible[i] <==> Occurs(Lower(value), Lower(rows[i].text)))
    {
      var searchTerm := Lower(value);
      var i := 0;
      while i < |rows|
        invariant 0 <= i <= |rows| && |visible| == |rows|
        invariant forall j :: 0 <= j < i ==> (visible[j] <==> SearchShows(value, rows[j]))
      {
        visible := visible[i := Contains(Lower(rows[i].text), searchTerm)];
        i := i + 1;
      }
    }

    /** The `change` handler of `.select-filter`. */
    method OnStatusChange(value: string)
      requires Valid()
      modifies this`visible
      ensures Valid()
      ensures forall i :: 0 <= i < |rows| ==> (visible[i] <==> StatusShows(value, rows[i]))
    {
      var i := 0;
      while i < |rows|
        invariant 0 <= i <= |rows| && |visible| == |rows|
        invariant forall j :: 0 <= j < i ==> (visible[j] <==> StatusShows(value, rows[j]))
      {
        if value == AllStatuses {
          visible := visible[i := true];
        } else {
          var status := rows[i].badge;
          visible := visible[i := status.Some? && Trim(status.value, IsJsSpace) == value];
        }
        i := i + 1;
      }
    }
  }

  /** A search followed by a status change: each handler rewrites every row,
      so the status filter alone decides what is shown. */
  method SearchThenStatus(t: Table, term: string, value: string)
    requires t.Valid()
    modifies t
    ensures t.Valid()
    ensures forall i :: 0 <= i < |t.rows| ==> (t.visible[i] <==> StatusShows(value, t.rows[i]))
  {
    t.OnSearch(term);
    t.OnStatusChange(value);
  }

  /** An empty search term shows every row. */
  lemma EmptySearchShowsAll(row: Row)
    ensures SearchShows("", row)
  {
    assert OccursAt("", Lower(row.text), 0);
  }

  /** The search ignores case: a term and its lower-cased form show the same rows. */
  lemma SearchIgnoresCase(term: string, row: Row)
    ensures SearchShows(Lower(term), row) <==> SearchShows(term, row)
  {
    LowerIdempotent(term);
  }

  /** A row without a badge is shown by the status filter only for "Todos os status". */
  lemma NoBadgeOnlyForAll(value: string, row: Row)
    requires row.badge.None?
    ensures StatusShows(value, row) <==> value == AllStatuses
  {
  }

  /** A selected value that starts or ends with white space matches no badge:
      the badge text is trimmed, the value is not. */
  lemma PaddedValueMatchesNoBadge(value: string, row: Row)
    requires value != AllStatuses && value != [] && (IsJsSpace(value[0]) || IsJsSpace(value[|value| - 1]))
    ensures !StatusShows(value, row)
  {
  }
}
