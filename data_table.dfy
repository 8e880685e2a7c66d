/**
 * The generic data table: local search over one field, a sort on one column
 * with a comparator that puts null and undefined first when ascending, and
 * pagination by slicing. The component's state (`order`, `orderBy`, `page`,
 * `rowsPerPage`, `searchTerm`) is a class updated by the handlers.
 */
module DataTable {
  import opened Js
  import Lists
  import Sorting

  datatype Order = Asc | Desc

  /** A row is an object; `row[field]` is `Get(row, field)`. */
  type Row = seq<Prop>

  /** `a[orderBy]` against `b[orderBy]`, as the table's sort comparator does it. */
  function CompareValues(a: JsValue, b: JsValue, order: Order): (r: int)
    ensures r == -1 || r == 0 || r == 1
    ensures r == 0 <==> StrictEquals(a, b)
    ensures !StrictEquals(a, b) && IsNullish(a) ==> r == (if order == Asc then -1 else 1)
    ensures !StrictEquals(a, b) && !IsNullish(a) && IsNullish(b) ==> r == (if order == Asc then 1 else -1)
  {
    if StrictEquals(a, b) then 0
    else if IsNullish(a) then (if order == Asc then -1 else 1)
    else if IsNullish(b) then (if order == Asc then 1 else -1)
    else if order == Asc then (if LessThan(a, b) then -1 else 1)
    else (if LessThan(b, a) then -1 else 1)
  }

  function Comparator(order: Order, field: string): (Row, Row) -> int
  {
    (a: Row, b: Row) => CompareValues(Get(a, field), Get(b, field), order)
  }

  /**
   * Two values the comparator places consistently: strictly equal, exactly one of
   * them null or undefined, or one below the other. (A null against an undefined
   * compares as "after" both ways when descending.)
   */
  predicate Comparable(a: JsValue, b: JsValue)
  {
    StrictEquals(a, b) || IsNullish(a) != IsNullish(b) || LessThan(a, b) || LessThan(b, a)
  }

  /** On comparable values the comparator never says "after" both ways. */
  lemma CompareSignConsistent(a: JsValue, b: JsValue, order: Order)
    requires Comparable(a, b)
    ensures CompareValues(a, b, order) >= 0 ==> CompareValues(b, a, order) <= 0
  {
    LessThanAsymmetric(a, b);
    StrictEqualsLaws(a, b);
  }

  /** `value && value.toString().toLowerCase().includes(searchTerm.toLowerCase())`. */
  predicate RowMatches(row: Row, term: string, field: string)
  {
    var v := Get(row, field);
    Truthy(v) && Includes(Lower(ToString(v)), Lower(term))
  }

  function Matcher(term: string, field: string): Row -> bool
  {
    (row: Row) => RowMatches(row, term, field)
  }

  /** Local search runs only without an external handler, with a term, and with a search field. */
  predicate SearchesLocally(hasOnSearch: bool, term: string, field: Option<string>)
  {
    !hasOnSearch && term != "" && field.Some? && field.value != ""
  }

  /** `filteredRows`. */
  function FilteredRows(rows: seq<Row>, hasOnSearch: bool, term: string, field: Option<string>): (r: seq<Row>)
    ensures !SearchesLocally(hasOnSearch, term, field) ==> r == rows
    ensures Lists.IsSubsequence(r, rows)
    ensures SearchesLocally(hasOnSearch, term, field) ==>
      (forall k :: 0 <= k < |r| ==> RowMatches(r[k], term, field.value)) &&
      (forall k :: 0 <= k < |rows| && RowMatches(rows[k], term, field.value) ==> rows[k] in r)
  {
    if SearchesLocally(hasOnSearch, term, field) then
      var m := Matcher(term, field.value);
      var r := Lists.Filter(rows, m);
      assert forall k :: 0 <= k < |r| ==> m(r[k]);
      assert forall k :: 0 <= k < |rows| && RowMatches(rows[k], term, field.value) ==> m(rows[k]);
      r
    else
      Lists.FilterAllOrNone(rows, (row: Row) => true);
      assert Lists.IsSubsequence(rows, rows) by { SubsequenceRefl(rows); }
      rows
  }

  lemma {:induction false} SubsequenceRefl(s: seq<Row>)
    ensures Lists.IsSubsequence(s, s)
  {
    if s != [] {
      SubsequenceRefl(s[1..]);
    }
  }

  /** `sortedRows`: with an `orderBy` column the rows are sorted on a copy; without one they are left as they are. */
  function SortedRows(rows: seq<Row>, orderBy: Option<string>, order: Order): (r: seq<Row>)
    ensures multiset(r) == multiset(rows)
    ensures orderBy.None? || orderBy.value == "" ==> r == rows
  {
    if orderBy.Some? && orderBy.value != "" then Sorting.Sort(rows, Comparator(order, orderBy.value)) else rows
  }

  /** When every pair of values in the column is comparable, the sorted rows are in comparator order. */
  lemma SortedRowsOrdered(rows: seq<Row>, field: string, order: Order)
    requires field != ""
    requires forall i, j :: 0 <= i < |rows| && 0 <= j < |rows| ==> Comparable(Get(rows[i], field), Get(rows[j], field))
    ensures Sorting.Ordered(SortedRows(rows, Some(field), order), Comparator(order, field))
  {
    var cmp := Comparator(order, field);
    forall i, j | 0 <= i < |rows| && 0 <= j < |rows| && cmp(rows[i], rows[j]) >= 0
      ensures cmp(rows[j], rows[i]) <= 0
    {
      CompareSignConsistent(Get(rows[i], field), Get(rows[j], field), order);
    }
    Sorting.SortOrdered(rows, cmp);
  }

  lemma {:induction false} ChainBackward(ks: seq<bool>)
    requires forall i :: 0 <= i < |ks| - 1 ==> ks[i + 1] ==> ks[i]
    ensures forall i, j :: 0 <= i <= j < |ks| ==> ks[j] ==> ks[i]
  {
    if |ks| > 1 {
      ChainBackward(ks[1..]);
      forall i, j | 0 <= i <= j < |ks| && ks[j] ensures ks[i] {
        if i > 0 {
          assert ks[i] == ks[1..][i - 1] && ks[j] == ks[1..][j - 1];
        } else if j > 0 {
          assert ks[1] == ks[1..][0] && ks[j] == ks[1..][j - 1];
        }
      }
    }
  }

  /** In ascending order, rows whose value is null or undefined come before all others. */
  lemma NullsFirstAscending(rows: seq<Row>, field: string)
    requires Sorting.Ordered(rows, Comparator(Asc, field))
    ensures forall i, j :: 0 <= i <= j < |rows| && IsNullish(Get(rows[j], field)) ==> IsNullish(Get(rows[i], field))
  {
    var cmp := Comparator(Asc, field);
    var ks := seq(|rows|, i requires 0 <= i < |rows| => IsNullish(Get(rows[i], field)));
    forall i | 0 <= i < |ks| - 1 && ks[i + 1] ensures ks[i] {
      assert cmp(rows[i], rows[i + 1]) <= 0;
    }
    ChainBackward(ks);
    forall i, j | 0 <= i <= j < |rows| && IsNullish(Get(rows[j], field)) ensures IsNullish(Get(rows[i], field)) {
      assert ks[j] && ks[i] == IsNullish(Get(rows[i], field));
    }
  }

  /** In descending order, rows whose value is null or undefined come after all others. */
  lemma NullsLastDescending(rows: seq<Row>, field: string)
    requires Sorting.Ordered(rows, Comparator(Desc, field))
    ensures forall i, j :: 0 <= i <= j < |rows| && IsNullish(Get(rows[i], field)) ==> IsNullish(Get(rows[j], field))
  {
    var cmp := Comparator(Desc, field);
    var ks := seq(|rows|, i requires 0 <= i < |rows| => !IsNullish(Get(rows[i], field)));
    forall i | 0 <= i < |ks| - 1 && ks[i + 1] ensures ks[i] {
      assert cmp(rows[i], rows[i + 1]) <= 0;
    }
    ChainBackward(ks);
    forall i, j | 0 <= i <= j < |rows| && IsNullish(Get(rows[i], field)) ensures IsNullish(Get(rows[j], field)) {
      assert ks[i] == !IsNullish(Get(rows[i], field)) && ks[j] == !IsNullish(Get(rows[j], field));
    }
  }

  /**
   * `paginatedRows`: the window [page·rowsPerPage, page·rowsPerPage + rowsPerPage)
   * of the sorted rows, or all of them without pagination. A rows-per-page value
   * that did not parse (NaN) gives an empty window.
   */
  function PaginatedRows(rows: seq<Row>, pagination: bool, page: nat, rowsPerPage: Option<int>): (r: seq<Row>)
    ensures !pagination ==> r == rows
    ensures pagination && rowsPerPage.Some? && rowsPerPage.value >= 0 ==>
      |r| <= rowsPerPage.value &&
      (page * rowsPerPage.value + rowsPerPage.value <= |rows| ==>
        r == rows[page * rowsPerPage.value..page * rowsPerPage.value + rowsPerPage.value]) &&
      (page * rowsPerPage.value < |rows| < page * rowsPerPage.value + rowsPerPage.value ==>
        r == rows[page * rowsPerPage.value..]) &&
      (|rows| <= page * rowsPerPage.value ==> r == [])
    ensures pagination && rowsPerPage.None? ==> r == []
  {
    if !pagination then rows
    else if rowsPerPage.None? then []
    else
      var n := rowsPerPage.value;
      if n >= 0 then
        SliceWindow(rows, page * n, n);
        Slice(rows, page * n, page * n + n)
      else Slice(rows, page * n, page * n + n)
  }

  /** What the table shows: filter, then sort, then paginate. */
  function VisibleRows(rows: seq<Row>, hasOnSearch: bool, term: string, field: Option<string>,
                       orderBy: Option<string>, order: Order, pagination: bool, page: nat, rowsPerPage: Option<int>): seq<Row>
  {
    PaginatedRows(SortedRows(FilteredRows(rows, hasOnSearch, term, field), orderBy, order), pagination, page, rowsPerPage)
  }

  /** Every row of a page is one of the rows paginated. */
  lemma PageWithinRows(s: seq<Row>, pagination: bool, page: nat, rowsPerPage: Option<int>)
    ensures var v := PaginatedRows(s, pagination, page, rowsPerPage);
      forall k :: 0 <= k < |v| ==> v[k] in s
  {
    var v := PaginatedRows(s, pagination, page, rowsPerPage);
    forall k | 0 <= k < |v| ensures v[k] in s {
      if pagination && rowsPerPage.Some? {
        var n := rowsPerPage.value;
        var from, to := SliceIndex(page * n, |s|), SliceIndex(page * n + n, |s|);
        if from < to {
          assert v[k] == s[from + k];
        }
      }
    }
  }

  /** Every shown row is a row of the input, and locally searched rows all match. */
  lemma VisibleRowsFromInput(rows: seq<Row>, hasOnSearch: bool, term: string, field: Option<string>,
                             orderBy: Option<string>, order: Order, pagination: bool, page: nat, rowsPerPage: Option<int>)
    ensures var v := VisibleRows(rows, hasOnSearch, term, field, orderBy, order, pagination, page, rowsPerPage);
      forall k :: 0 <= k < |v| ==>
        (v[k] in rows && (SearchesLocally(hasOnSearch, term, field) ==> RowMatches(v[k], term, field.value)))
  {
    var f := FilteredRows(rows, hasOnSearch, term, field);
    var s := SortedRows(f, orderBy, order);
    var v := PaginatedRows(s, pagination, page, rowsPerPage);
    PageWithinRows(s, pagination, page, rowsPerPage);
    forall k | 0 <= k < |v| ensures v[k] in rows && (SearchesLocally(hasOnSearch, term, field) ==> RowMatches(v[k], term, field.value)) {
      assert v[k] in multiset(s);
      assert v[k] in multiset(f);
      var j :| 0 <= j < |f| && f[j] == v[k];
      SubsequenceMember(f, rows, j);
    }
  }

  lemma {:induction false} SubsequenceMember(a: seq<Row>, b: seq<Row>, j: nat)
    requires Lists.IsSubsequence(a, b) && j < |a|
    ensures a[j] in b
    decreases |b|
  {
    if a[0] == b[0] && Lists.IsSubsequence(a[1..], b[1..]) {
      if j > 0 {
        SubsequenceMember(a[1..], b[1..], j - 1);
      }
    } else {
      SubsequenceMember(a, b[1..], j);
    }
  }

  class Table {
    var order: Order
    var orderBy: Option<string>
    var page: nat
    var rowsPerPage: Option<int>
    var searchTerm: string

    /** The initial state: the default sort, page 0, the first rows-per-page option, no search. */
    constructor (defaultSortColumn: Option<string>, defaultSortDirection: Order, rowsPerPageOptions: seq<int>)
      ensures order == defaultSortDirection && orderBy == defaultSortColumn && page == 0 && searchTerm == ""
      ensures rowsPerPage == if rowsPerPageOptions == [] then None else Some(rowsPerPageOptions[0])
    {
      order, orderBy, page, searchTerm := defaultSortDirection, defaultSortColumn, 0, "";
      rowsPerPage := if rowsPerPageOptions == [] then None else Some(rowsPerPageOptions[0]);
    }

    /** `handleRequestSort`: descending only when the current column is clicked while ascending. */
    method RequestSort(property: string)
      modifies this
      ensures orderBy == Some(property)
      ensures order == if old(orderBy) == Some(property) && old(order) == Asc then Desc else Asc
      ensures page == old(page) && rowsPerPage == old(rowsPerPage) && searchTerm == old(searchTerm)
    {
      var isAsc := orderBy == Some(property) && order == Asc;
      order := if isAsc then Desc else Asc;
      orderBy := Some(property);
    }

    /** `handleChangePage`. */
    method ChangePage(newPage: nat)
      modifies this
      ensures page == newPage
      ensures order == old(order) && orderBy == old(orderBy) && rowsPerPage == old(rowsPerPage) && searchTerm == old(searchTerm)
    {
      page := newPage;
    }

    /** `handleChangeRowsPerPage`: the parsed value (NaN as `None`) is stored and the page resets to 0. */
    method ChangeRowsPerPage(parsed: Option<int>)
      modifies this
      ensures rowsPerPage == parsed && page == 0
      ensures order == old(order) && orderBy == old(orderBy) && searchTerm == old(searchTerm)
    {
      rowsPerPage := parsed;
      page := 0;
    }

    /** `handleSearch`: stores the term, resets the page, and hands the term to an external handler if there is one. */
    method Search(value: string, hasOnSearch: bool) returns (forwarded: Option<string>)
      modifies this
      ensures searchTerm == value && page == 0
      ensures forwarded == if hasOnSearch then Some(value) else None
      ensures order == old(order) && orderBy == old(orderBy) && rowsPerPage == old(rowsPerPage)
    {
      searchTerm := value;
      page := 0;
      forwarded := if hasOnSearch then Some(value) else None;
    }

    /** `handleClearSearch`: empties the term but keeps the page. */
    method ClearSearch(hasOnSearch: bool) returns (forwarded: Option<string>)
      modifies this
      ensures searchTerm == "" && page == old(page)
      ensures forwarded == if hasOnSearch then Some("") else None
      ensures order == old(order) && orderBy == old(orderBy) && rowsPerPage == old(rowsPerPage)
    {
      searchTerm := "";
      forwarded := if hasOnSearch then Some("") else None;
    }
  }
}
