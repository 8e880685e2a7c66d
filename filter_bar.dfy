/**
 * The filter bar above a list: a search box, a popover of pending filter edits
 * (`tempFilters`) that are reported on Apply, chips for the committed active
 * filters, and the clear/remove handlers.
 */
module FilterBar {
  import opened Js
  import opened Lists

  datatype FilterType = Text | Select | Multiselect | Checkbox | Date | DateRange | Number | NumberRange

  /** One entry of a select or multiselect filter's `options`. */
  datatype Choice = Choice(value: JsValue, caption: string)

  datatype FilterOption = FilterOption(
    id: string,
    caption: string,
    kind: FilterType,
    value: JsValue,
    options: Option<seq<Choice>>,
    active: Option<bool>)

  /** `filter.active` is truthy. */
  predicate IsActive(f: FilterOption)
  {
    f.active == Some(true)
  }

  function ActiveTest(): FilterOption -> bool
  {
    f => IsActive(f)
  }

  /** The flag a change stores: the value is neither undefined, '' nor null. */
  predicate HasValue(v: JsValue)
  {
    !(v.Undefined? || v == Str("") || v.Null?)
  }

  /** `{ ...filter, value, active: ... }`. */
  function WithValue(f: FilterOption, v: JsValue): (r: FilterOption)
    ensures r.id == f.id && r.caption == f.caption && r.kind == f.kind && r.options == f.options
    ensures r.value == v
  {
    f.(value := v, active := Some(HasValue(v)))
  }

  /** `handleFilterChange`: the filters with that id take the new value and flag. */
  function ChangeFilter(fs: seq<FilterOption>, id: string, v: JsValue): (r: seq<FilterOption>)
    ensures |r| == |fs|
    ensures forall i :: 0 <= i < |fs| && fs[i].id != id ==> r[i] == fs[i]
    ensures forall i :: 0 <= i < |fs| && fs[i].id == id ==>
      r[i] == fs[i].(value := v, active := Some(HasValue(v)))
    ensures forall i :: 0 <= i < |fs| && fs[i].id == id ==>
      (IsActive(r[i]) <==> !(v.Undefined? || v == Str("") || v.Null?))
  {
    if fs == [] then []
    else [if fs[0].id == id then WithValue(fs[0], v) else fs[0]] + ChangeFilter(fs[1..], id, v)
  }

  /** false, 0 and an empty array count as set; undefined, '' and null do not. */
  lemma ActiveAfterChange(fs: seq<FilterOption>, id: string, i: nat, ref: nat)
    requires i < |fs| && fs[i].id == id
    ensures IsActive(ChangeFilter(fs, id, Bool(false))[i])
    ensures IsActive(ChangeFilter(fs, id, Num(0))[i])
    ensures IsActive(ChangeFilter(fs, id, Arr(ref, []))[i])
    ensures !IsActive(ChangeFilter(fs, id, Undefined)[i])
    ensures !IsActive(ChangeFilter(fs, id, Str(""))[i])
    ensures !IsActive(ChangeFilter(fs, id, Null)[i])
  {
  }

  /** `handleClearAllFilters`: every value becomes undefined and every flag false. */
  function ClearAll(fs: seq<FilterOption>): (r: seq<FilterOption>)
    ensures |r| == |fs|
    ensures forall i :: 0 <= i < |fs| ==> r[i] == fs[i].(value := Undefined, active := Some(false))
  {
    if fs == [] then [] else [WithValue(fs[0], Undefined)] + ClearAll(fs[1..])
  }

  /** Clearing twice is clearing once, and nothing stays active. */
  lemma {:induction false} ClearAllIdempotent(fs: seq<FilterOption>)
    ensures ClearAll(ClearAll(fs)) == ClearAll(fs)
    ensures ActiveFilterCount(ClearAll(fs)) == 0
  {
    if fs != [] {
      ClearAllIdempotent(fs[1..]);
      assert ClearAll(fs)[1..] == ClearAll(fs[1..]);
    }
  }

  /**
   * `handleRemoveFilter`: built from the committed `filters`, not from the
   * pending edits; the filters with that id are cleared.
   */
  function RemoveFilter(filters: seq<FilterOption>, id: string): (r: seq<FilterOption>)
    ensures |r| == |filters|
    ensures forall i :: 0 <= i < |filters| && filters[i].id != id ==> r[i] == filters[i]
    ensures forall i :: 0 <= i < |filters| && filters[i].id == id ==>
      r[i] == filters[i].(value := Undefined, active := Some(false))
  {
    if filters == [] then []
    else
      var head := if filters[0].id == id then filters[0].(value := Undefined, active := Some(false)) else filters[0];
      [head] + RemoveFilter(filters[1..], id)
  }

  /** Removing a filter is the same as changing it to undefined. */
  lemma {:induction false} RemoveIsChangeToUndefined(filters: seq<FilterOption>, id: string)
    ensures RemoveFilter(filters, id) == ChangeFilter(filters, id, Undefined)
  {
    if filters != [] {
      RemoveIsChangeToUndefined(filters[1..], id);
    }
  }

  /** `activeFilterCount`: the committed filters whose flag is set. */
  function ActiveFilterCount(filters: seq<FilterOption>): (n: nat)
    ensures n <= |filters|
    ensures n == 0 <==> forall i :: 0 <= i < |filters| ==> !IsActive(filters[i])
  {
    var act := Filter(filters, ActiveTest());
    if act == [] then FilterAllOrNone(filters, ActiveTest()); 0
    else |act|
  }

  function ActiveWithId(id: string): FilterOption -> bool
  {
    f => IsActive(f) && f.id == id
  }

  /** Removing a filter lowers the count by exactly the active filters with that id. */
  lemma {:induction false} RemoveFilterCount(filters: seq<FilterOption>, id: string)
    ensures ActiveFilterCount(RemoveFilter(filters, id)) + Count(filters, ActiveWithId(id)) == ActiveFilterCount(filters)
  {
    if filters != [] {
      RemoveFilterCount(filters[1..], id);
      var r := RemoveFilter(filters, id);
      assert r[1..] == RemoveFilter(filters[1..], id);
      assert Filter(r, ActiveTest()) == (if IsActive(r[0]) then [r[0]] else []) + Filter(r[1..], ActiveTest());
    }
  }

  /** The new multiselect value after deleting one chip: the rest, or undefined once nothing is left. */
  function NotEqualTo(value: JsValue): JsValue -> bool
  {
    v => !StrictEquals(v, value)
  }

  function DeleteChip(items: seq<JsValue>, value: JsValue, ref: nat): (r: JsValue)
    ensures r.Undefined? <==> forall i :: 0 <= i < |items| ==> StrictEquals(items[i], value)
    ensures r.Arr? ==> r.items != [] && forall i :: 0 <= i < |r.items| ==> r.items[i] in items && !StrictEquals(r.items[i], value)
    ensures r.Undefined? || r.Arr?
    ensures r.Arr? ==> r.items == Filter(items, NotEqualTo(value)) && r.ref == ref
  {
    var rest := Filter(items, NotEqualTo(value));
    FilterAllOrNone(items, NotEqualTo(value));
    if |rest| > 0 then Arr(ref, rest) else Undefined
  }

  /** Deleting the last chip leaves the filter inactive. */
  lemma LastChipDeactivates(fs: seq<FilterOption>, id: string, value: JsValue, ref: nat, i: nat)
    requires i < |fs| && fs[i].id == id
    ensures !IsActive(ChangeFilter(fs, id, DeleteChip([value], value, ref))[i])
  {
    StrictEqualsLaws(value, value);
  }

  // ------------------------------------------------------------- chip labels

  /** `const { key } = value`: a property of an object, undefined otherwise. */
  function Member(v: JsValue, key: string): JsValue
  {
    if v.Obj? then Get(v.props, key) else Undefined
  }

  function ChoiceFor(v: JsValue): Choice -> bool
  {
    (c: Choice) => StrictEquals(c.value, v)
  }

  /** None of the select, multiselect, checkbox or range forms applies: the chip shows the raw value. */
  predicate ShowsRawValue(f: FilterOption)
  {
    !(f.kind == Select && f.options.Some?) &&
    !(f.kind == Multiselect && f.options.Some? && f.value.Arr?) &&
    f.kind != Checkbox &&
    !(f.kind == DateRange && Truthy(f.value)) &&
    !(f.kind == NumberRange && Truthy(f.value))
  }

  /**
   * The text of an active filter's chip; it always begins with the filter's label.
   * A select shows the caption of the first option whose value is the filter's value,
   * or the bare label when none is; a multiselect shows how many values are chosen;
   * a checkbox shows the bare label; any other filter shows its value unless that is
   * undefined or ''. The two range forms are the lemmas below.
   */
  function ChipLabel(f: FilterOption): (r: string)
    ensures |f.caption| <= |r| && r[..|f.caption|] == f.caption
    ensures f.kind == Select && f.options.Some? && Find(f.options.value, ChoiceFor(f.value)).Some? ==>
      r == f.caption + ": " + Find(f.options.value, ChoiceFor(f.value)).value.caption
    ensures f.kind == Select && f.options.Some? && Find(f.options.value, ChoiceFor(f.value)).None? ==> r == f.caption
    ensures f.kind == Select && f.options.Some? ==>
      (Find(f.options.value, ChoiceFor(f.value)).None? <==>
       forall j :: 0 <= j < |f.options.value| ==> !StrictEquals(f.options.value[j].value, f.value))
    ensures f.kind == Multiselect && f.options.Some? && f.value.Arr? ==>
      r == f.caption + " (" + NatToString(|f.value.items|) + ")"
    ensures f.kind == Checkbox ==> r == f.caption
    ensures ShowsRawValue(f) && !f.value.Undefined? && f.value != Str("") ==> r == f.caption + ": " + ToString(f.value)
    ensures ShowsRawValue(f) && (f.value.Undefined? || f.value == Str("")) ==> r == f.caption
  {
    var l := f.caption;
    if f.kind == Select && f.options.Some? then
      match Find(f.options.value, ChoiceFor(f.value))
      case Some(o) => l + ": " + o.caption
      case None => l
    else if f.kind == Multiselect && f.options.Some? && f.value.Arr? then
      l + " (" + NatToString(|f.value.items|) + ")"
    else if f.kind == Checkbox then l
    else if f.kind == DateRange && Truthy(f.value) then
      var from, to := Member(f.value, "from"), Member(f.value, "to");
      if Truthy(from) && Truthy(to) then l + ": " + ToString(from) + " to " + ToString(to)
      else if Truthy(from) then l + ": From " + ToString(from)
      else if Truthy(to) then l + ": Until " + ToString(to)
      else l
    else if f.kind == NumberRange && Truthy(f.value) then
      var min, max := Member(f.value, "min"), Member(f.value, "max");
      if !min.Undefined? && !max.Undefined? then l + ": " + ToString(min) + " to " + ToString(max)
      else if !min.Undefined? then l + ": \U{2265} " + ToString(min)
      else if !max.Undefined? then l + ": \U{2264} " + ToString(max)
      else l
    else if !f.value.Undefined? && f.value != Str("") then l + ": " + ToString(f.value)
    else l
  }

  /** The three date-range chip forms, for dates given as strings. */
  lemma DateRangeLabels(id: string, l: string, ref: nat, a: string, b: string)
    ensures var f := FilterOption(id, l, DateRange, Obj(ref, [Prop("from", Str(a)), Prop("to", Str(b))]), None, Some(true));
      ChipLabel(f) ==
        if a != "" && b != "" then l + ": " + a + " to " + b
        else if a != "" then l + ": From " + a
        else if b != "" then l + ": Until " + b
        else l
  {
    var props := [Prop("from", Str(a)), Prop("to", Str(b))];
    assert "from"[0] != "to"[0];
    assert Get(props, "from") == Str(a);
    assert Get(props[1..], "to") == Str(b);
  }

  /** A range with both bounds reads "min to max". */
  lemma NumberRangeBoth(id: string, l: string, ref: nat, lo: int, hi: int)
    ensures var f := FilterOption(id, l, NumberRange, Obj(ref, [Prop("min", Num(lo)), Prop("max", Num(hi))]), None, Some(true));
      ChipLabel(f) == l + ": " + IntToString(lo) + " to " + IntToString(hi)
  {
    var both := [Prop("min", Num(lo)), Prop("max", Num(hi))];
    assert "min"[1] != "max"[1];
    assert Get(both, "min") == Num(lo);
    assert Get(both[1..], "max") == Num(hi);
  }

  /** A range with only a lower bound reads "≥ min". */
  lemma NumberRangeLow(id: string, l: string, ref: nat, lo: int)
    ensures var f := FilterOption(id, l, NumberRange, Obj(ref, [Prop("min", Num(lo))]), None, Some(true));
      ChipLabel(f) == l + ": \U{2265} " + IntToString(lo)
  {
    assert "min"[1] != "max"[1];
    assert Get([Prop("min", Num(lo))][1..], "max") == Undefined;
  }

  /** A range with only an upper bound reads "≤ max". */
  lemma NumberRangeHigh(id: string, l: string, ref: nat, hi: int)
    ensures var f := FilterOption(id, l, NumberRange, Obj(ref, [Prop("max", Num(hi))]), None, Some(true));
      ChipLabel(f) == l + ": \U{2264} " + IntToString(hi)
  {
    assert "min"[1] != "max"[1];
    assert Get([Prop("max", Num(hi))][1..], "min") == Undefined;
  }

  /** The three number-range chip forms; a bound counts when it is not undefined, so 0 shows. */
  lemma NumberRangeLabels(id: string, l: string, ref: nat, lo: int, hi: int)
    ensures var both := FilterOption(id, l, NumberRange, Obj(ref, [Prop("min", Num(lo)), Prop("max", Num(hi))]), None, Some(true));
      ChipLabel(both) == l + ": " + IntToString(lo) + " to " + IntToString(hi)
    ensures var low := FilterOption(id, l, NumberRange, Obj(ref, [Prop("min", Num(lo))]), None, Some(true));
      ChipLabel(low) == l + ": \U{2265} " + IntToString(lo)
    ensures var high := FilterOption(id, l, NumberRange, Obj(ref, [Prop("max", Num(hi))]), None, Some(true));
      ChipLabel(high) == l + ": \U{2264} " + IntToString(hi)
  {
    NumberRangeBoth(id, l, ref, lo, hi);
    NumberRangeLow(id, l, ref, lo);
    NumberRangeHigh(id, l, ref, hi);
  }

  /** The chips shown: one per active committed filter, in order. */
  function ActiveChips(filters: seq<FilterOption>): (r: seq<string>)
    ensures |r| == ActiveFilterCount(filters)
    ensures forall i :: 0 <= i < |r| ==> exists j :: 0 <= j < |filters| && IsActive(filters[j]) && StartsWith(r[i], filters[j].caption)
    ensures forall i :: 0 <= i < |r| ==> r[i] == ChipLabel(Filter(filters, ActiveTest())[i])
  {
    var act := Filter(filters, ActiveTest());
    var r := seq(|act|, i requires 0 <= i < |act| => ChipLabel(act[i]));
    assert forall i :: 0 <= i < |r| ==> act[i] in filters && IsActive(act[i]) && StartsWith(r[i], act[i].caption);
    r
  }

  // ------------------------------------------------------------------- state

  /** The bar's own state: the pending filters, the search text, whether the popover is open. */
  class Bar {
    var tempFilters: seq<FilterOption>
    var searchQuery: string
    var open: bool

    constructor (filters: seq<FilterOption>, initialSearchQuery: string)
      ensures tempFilters == filters && searchQuery == initialSearchQuery && !open
    {
      tempFilters, searchQuery, open := filters, initialSearchQuery, false;
    }

    /** New committed filters from the parent replace the pending ones. */
    method SyncFilters(filters: seq<FilterOption>)
      modifies this
      ensures tempFilters == filters && searchQuery == old(searchQuery) && open == old(open)
    {
      tempFilters := filters;
    }

    /** `handleSearchChange`: stores the text and forwards it when there is a listener. */
    method SearchChange(query: string, hasListener: bool) returns (forwarded: Option<string>)
      modifies this
      ensures searchQuery == query && forwarded == (if hasListener then Some(query) else None)
      ensures tempFilters == old(tempFilters) && open == old(open)
    {
      searchQuery := query;
      forwarded := if hasListener then Some(query) else None;
    }

    /** `handleClearSearch`. */
    method ClearSearch(hasListener: bool) returns (forwarded: Option<string>)
      modifies this
      ensures searchQuery == "" && forwarded == (if hasListener then Some("") else None)
      ensures tempFilters == old(tempFilters) && open == old(open)
    {
      searchQuery := "";
      forwarded := if hasListener then Some("") else None;
    }

    method OpenFilters()
      modifies this
      ensures open && tempFilters == old(tempFilters) && searchQuery == old(searchQuery)
    {
      open := true;
    }

    method CloseFilters()
      modifies this
      ensures !open && tempFilters == old(tempFilters) && searchQuery == old(searchQuery)
    {
      open := false;
    }

    /** `handleApplyFilters`: reports the pending filters as they are and closes the popover. */
    method ApplyFilters() returns (reported: seq<FilterOption>)
      modifies this
      ensures reported == old(tempFilters) && !open
      ensures tempFilters == old(tempFilters) && searchQuery == old(searchQuery)
    {
      reported := tempFilters;
      CloseFilters();
    }

    /** `handleFilterChange` on the pending filters. */
    method FilterChange(id: string, value: JsValue)
      modifies this
      ensures tempFilters == ChangeFilter(old(tempFilters), id, value)
      ensures searchQuery == old(searchQuery) && open == old(open)
    {
      tempFilters := ChangeFilter(tempFilters, id, value);
    }

    /** `handleClearAllFilters`: clears the pending filters and reports them at once. */
    method ClearAllFilters() returns (reported: seq<FilterOption>)
      modifies this
      ensures tempFilters == ClearAll(old(tempFilters)) && reported == tempFilters
      ensures searchQuery == old(searchQuery) && open == old(open)
    {
      tempFilters := ClearAll(tempFilters);
      reported := tempFilters;
    }
  }
}
