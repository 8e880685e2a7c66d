/**
 * The inspections table of the older front-end: the status tabs and the
 * search over vehicle, date and notes, the status chip colour, and the
 * shortened notes cell.
 */
module InspectionsPage {
  import opened Js
  import opened Lists
  import Helpers

  datatype Status = Passed | Failed | Pending

  datatype Inspection = Inspection(
    id: string,
    vehicleId: string,
    vehicleName: string,
    date: string,
    status: Status,
    notes: Option<string>)

  /** `getStatusColor`. */
  function StatusColor(s: Status): (c: string)
    ensures c == "success" <==> s == Passed
    ensures c == "error" <==> s == Failed
    ensures c == "warning" <==> s == Pending
  {
    match s
    case Passed => "success"
    case Failed => "error"
    case Pending => "warning"
  }

  /** The status a tab keeps: tab 1 pending, tab 2 passed, tab 3 failed; any other tab keeps every status. */
  function TabStatus(tab: int): (s: Option<Status>)
    ensures s.Some? <==> 1 <= tab <= 3
  {
    if tab == 1 then Some(Pending) else if tab == 2 then Some(Passed) else if tab == 3 then Some(Failed) else None
  }

  /** The search: the vehicle name, the date as the browser shows it (`dateLabel`) or non-empty notes contain the term. */
  predicate SearchHit(i: Inspection, term: string, dateLabel: string -> string)
  {
    Includes(Lower(i.vehicleName), Lower(term)) || Includes(Lower(dateLabel(i.date)), Lower(term)) ||
    (i.notes.Some? && i.notes.value != "" && Includes(Lower(i.notes.value), Lower(term)))
  }

  /** One row's test: the tab's status first, then the search. */
  function Shows(tab: int, term: string, dateLabel: string -> string): Inspection -> bool
  {
    (i: Inspection) => (TabStatus(tab).None? || i.status == TabStatus(tab).value) && SearchHit(i, term, dateLabel)
  }

  /** `filteredInspections`. */
  function Filtered(s: seq<Inspection>, tab: int, term: string, dateLabel: string -> string): (r: seq<Inspection>)
    ensures IsSubsequence(r, s)
    ensures forall k :: 0 <= k < |r| ==> TabStatus(tab).None? || r[k].status == TabStatus(tab).value
    ensures forall k :: 0 <= k < |s| ==> (s[k] in r <==> Shows(tab, term, dateLabel)(s[k]))
  {
    Filter(s, Shows(tab, term, dateLabel))
  }

  /** The 'All' tab with an empty search shows every inspection. */
  lemma AllTabEmptySearchShowsAll(s: seq<Inspection>, dateLabel: string -> string)
    ensures Filtered(s, 0, "", dateLabel) == s
  {
    forall k | 0 <= k < |s| ensures Shows(0, "", dateLabel)(s[k]) {
      assert Lower("") == "";
      assert OccursAt(Lower(s[k].vehicleName), "", 0);
      assert SearchHit(s[k], "", dateLabel);
    }
    FilterAllOrNone(s, Shows(0, "", dateLabel));
  }

  /** For any search, the pending, passed and failed tabs together hold exactly the rows of the 'All' tab. */
  lemma {:induction false} TabsPartitionAll(s: seq<Inspection>, term: string, dateLabel: string -> string)
    ensures |Filtered(s, 1, term, dateLabel)| + |Filtered(s, 2, term, dateLabel)| + |Filtered(s, 3, term, dateLabel)|
         == |Filtered(s, 0, term, dateLabel)|
  {
    if s != [] {
      TabsPartitionAll(s[1..], term, dateLabel);
      var hit := SearchHit(s[0], term, dateLabel);
      assert Shows(0, term, dateLabel)(s[0]) == hit;
      assert Shows(1, term, dateLabel)(s[0]) == (hit && s[0].status == Pending);
      assert Shows(2, term, dateLabel)(s[0]) == (hit && s[0].status == Passed);
      assert Shows(3, term, dateLabel)(s[0]) == (hit && s[0].status == Failed);
    }
  }

  /**
   * The notes cell: 'No notes' when there are none, else the notes cut to 50
   * characters and '...', which is what `truncateString` does at its default length.
   */
  function NotesCell(notes: Option<string>): (r: string)
    ensures notes.None? || notes.value == "" ==> r == "No notes"
    ensures notes.Some? && notes.value != "" ==> r == Helpers.TruncateString(notes.value, Helpers.DefaultTruncateLength)
    ensures notes.Some? && |notes.value| > 50 ==> |r| == 53 && r[..50] == notes.value[..50]
  {
    if notes.None? || notes.value == "" then "No notes"
    else if |notes.value| > 50 then notes.value[..50] + "..."
    else notes.value
  }
}
